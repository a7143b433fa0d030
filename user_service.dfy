/**
 * The user service (src/api/v1/services/users.rs): the user table and the
 * operations on it.
 *
 * The table is the sequence of rows in the order the database returns them.
 * A query that looks a row up by email or id yields the first matching row.
 * An UPDATE or DELETE acts on every matching row. The text of the SQL files
 * is not part of this model; each query is taken to filter on the one
 * column it binds.
 *
 * Other parts of the model are supplied from outside:
 *  - A database that cannot be reached fails every query with one message.
 *  - Argon2 is an oracle: `hasher(password, salt)` hashes, `parse` reads a
 *    stored PHC string, and `verify` checks a password against a parsed hash.
 *  - The random salt is a parameter.
 *  - So are the columns the database fills in: id, password revision and
 *    timestamps.
 */
module UserService {
  import opened Prelude
  import opened UserModel

  /** A stored hash that `PasswordHash::new` accepted. */
  datatype ParsedHash = ParsedHash(phc: string)

  /** The answer of an operation on the table and the table afterwards. */
  datatype Change<+T> = Change(result: Result<T, string>, users: seq<User>)

  /** What the database generates for a new row. */
  datatype Generated = Generated(id: Uuid, passwordRev: Uuid, createdAt: Timestamp, updatedAt: Timestamp)

  const InvalidEmailOrPassword := "Invald email or password"
  const InvalidPassword := "Invalid password"
  const UserAlreadyExists := "User already exists"
  const HashFailurePrefix := "Failed to hash password\n"
  /** The error `fetch_one` reports when a query returns no row. */
  const NoRows := "no rows returned by a query that expected to return at least one row"

  /** Some row has this email (`user_exists`). */
  predicate HasEmail(rows: seq<User>, email: string) {
    exists i :: 0 <= i < |rows| && rows[i].email == email
  }

  /** The first row with this email (`fetch_user_by_email`). */
  function FirstWithEmail(rows: seq<User>, email: string): (r: Option<User>)
    ensures r.None? <==> !HasEmail(rows, email)
    ensures r.Some? ==> r.value in rows && r.value.email == email
  {
    if rows == [] then None
    else if rows[0].email == email then Some(rows[0])
    else
      var rest := FirstWithEmail(rows[1..], email);
      assert forall i :: 1 <= i < |rows| ==> rows[i] == rows[1..][i - 1];
      rest
  }

  /** The row found is the first with that email: no earlier row has it. */
  lemma {:induction false} FirstWithEmailIsFirst(rows: seq<User>, email: string, i: nat)
    requires i < |rows| && rows[i].email == email
    ensures FirstWithEmail(rows, email).Some?
    ensures exists k :: 0 <= k <= i && rows[k] == FirstWithEmail(rows, email).value && !HasEmail(rows[..k], email)
    decreases i
  {
    assert HasEmail(rows, email);
    if rows[0].email == email {
      assert rows[..0] == [];
      assert rows[0] == FirstWithEmail(rows, email).value;
    } else {
      FirstWithEmailIsFirst(rows[1..], email, i - 1);
      var k :| 0 <= k <= i - 1 && rows[1..][k] == FirstWithEmail(rows[1..], email).value && !HasEmail(rows[1..][..k], email);
      var before, tail := rows[..k + 1], rows[1..][..k];
      assert before == [rows[0]] + tail;
      assert !HasEmail(before, email) by {
        forall j | 0 <= j < |before|
          ensures before[j].email != email
        {
          if j > 0 {
            assert before[j] == tail[j - 1];
          }
        }
      }
      assert rows[k + 1] == FirstWithEmail(rows, email).value;
    }
  }

  /** The first row with this id (`fetch_user_by_id`). */
  function FirstWithId(rows: seq<User>, id: string): (r: Option<User>)
    ensures r.None? <==> forall i :: 0 <= i < |rows| ==> rows[i].id.text != id
    ensures r.Some? ==> r.value in rows && r.value.id.text == id
  {
    if rows == [] then None
    else if rows[0].id.text == id then Some(rows[0])
    else
      var rest := FirstWithId(rows[1..], id);
      assert forall i :: 1 <= i < |rows| ==> rows[i] == rows[1..][i - 1];
      rest
  }

  /** `update_user_password.sql`: the rows with this id get the new hash. */
  function SetPassword(rows: seq<User>, id: string, hash: string): (r: seq<User>)
    ensures |r| == |rows|
    ensures forall i :: 0 <= i < |rows| ==> r[i] == if rows[i].id.text == id then rows[i].(password := hash) else rows[i]
  {
    if rows == [] then []
    else
      var rest := SetPassword(rows[1..], id, hash);
      var head := if rows[0].id.text == id then rows[0].(password := hash) else rows[0];
      assert forall i :: 1 <= i < |rows| ==> rows[i] == rows[1..][i - 1] && ([head] + rest)[i] == rest[i - 1];
      [head] + rest
  }

  /** `update_user.sql` on one row: name, email, role and verified are replaced and `updated_at` is stamped. */
  function Revised(user: User, data: UpdateUserData, now: Timestamp): User {
    user.(name := data.name, email := data.email, role := data.role, verified := data.verified, updatedAt := Some(now))
  }

  /** `update_user.sql` on the table. */
  function ApplyUpdate(rows: seq<User>, data: UpdateUserData, now: Timestamp): (r: seq<User>)
    ensures |r| == |rows|
    ensures forall i :: 0 <= i < |rows| ==> r[i] == if rows[i].id.text == data.id then Revised(rows[i], data, now) else rows[i]
  {
    if rows == [] then []
    else
      var rest := ApplyUpdate(rows[1..], data, now);
      var head := if rows[0].id.text == data.id then Revised(rows[0], data, now) else rows[0];
      assert forall i :: 1 <= i < |rows| ==> rows[i] == rows[1..][i - 1] && ([head] + rest)[i] == rest[i - 1];
      [head] + rest
  }

  /** `delete_user.sql`: the rows with this id are gone, the others stay in order. */
  function Without(rows: seq<User>, id: string): (r: seq<User>)
    ensures |r| <= |rows|
    ensures forall u :: u in r <==> u in rows && u.id.text != id
  {
    if rows == [] then []
    else
      var rest := Without(rows[1..], id);
      assert forall u :: u in rows <==> u == rows[0] || u in rows[1..];
      if rows[0].id.text == id then rest else [rows[0]] + rest
  }

  /** A row appended behind rows that lack its email is the one an email lookup finds. */
  lemma {:induction false} AppendedRowIsFoundByEmail(rows: seq<User>, user: User)
    requires !HasEmail(rows, user.email)
    ensures FirstWithEmail(rows + [user], user.email) == Some(user)
    decreases |rows|
  {
    if rows != [] {
      assert (rows + [user])[1..] == rows[1..] + [user];
      assert !HasEmail(rows[1..], user.email) by {
        forall i | 0 <= i < |rows[1..]|
          ensures rows[1..][i].email != user.email
        {
          assert rows[1..][i] == rows[i + 1];
        }
      }
      AppendedRowIsFoundByEmail(rows[1..], user);
    }
  }

  /**
   * The user table behind `UserPDO`, with the database's availability and
   * the Argon2 primitives fixed for its lifetime.
   */
  class UserStore {
    var users: seq<User>
    const unavailable: Option<string>
    const hasher: (string, string) -> Result<string, string>
    const parse: string -> Option<ParsedHash>
    const verify: (string, ParsedHash) -> bool

    constructor (users: seq<User>, unavailable: Option<string>,
                 hasher: (string, string) -> Result<string, string>,
                 parse: string -> Option<ParsedHash>, verify: (string, ParsedHash) -> bool)
      ensures this.users == users && this.unavailable == unavailable
      ensures this.hasher == hasher && this.parse == parse && this.verify == verify
    {
      this.users := users;
      this.unavailable := unavailable;
      this.hasher := hasher;
      this.parse := parse;
      this.verify := verify;
    }

    /**
     * `verify_user_password`: true exactly when the stored hash parses and
     * Argon2 accepts the password against it; an unparsable hash never
     * verifies.
     */
    function VerifyUserPassword(user: User, password: string): (r: bool)
      ensures parse(user.password).None? ==> !r
      ensures r <==> exists h :: parse(user.password) == Some(h) && verify(password, h)
    {
      match parse(user.password)
      case None => false
      case Some(h) => verify(password, h)
    }

    /** `fetch_users`. */
    method FetchUsers() returns (r: Result<seq<User>, string>)
      ensures unavailable.Some? ==> r == Failure(unavailable.value)
      ensures unavailable.None? ==> r == Success(users)
    {
      if unavailable.Some? {
        return Failure(unavailable.value);
      }
      return Success(users);
    }

    /** `fetch_user_by_id`. */
    method FetchUserById(id: string) returns (r: Result<Option<User>, string>)
      ensures unavailable.Some? ==> r == Failure(unavailable.value)
      ensures unavailable.None? ==> r == Success(FirstWithId(users, id))
    {
      if unavailable.Some? {
        return Failure(unavailable.value);
      }
      return Success(FirstWithId(users, id));
    }

    /** `fetch_user_by_email`. */
    method FetchUserByEmail(email: string) returns (r: Result<Option<User>, string>)
      ensures unavailable.Some? ==> r == Failure(unavailable.value)
      ensures unavailable.None? ==> r == Success(FirstWithEmail(users, email))
    {
      if unavailable.Some? {
        return Failure(unavailable.value);
      }
      return Success(FirstWithEmail(users, email));
    }

    /** `user_exists`. */
    method UserExists(email: string) returns (r: Result<bool, string>)
      ensures unavailable.Some? ==> r == Failure(unavailable.value)
      ensures unavailable.None? ==> r == Success(HasEmail(users, email))
    {
      var found := FetchUserByEmail(email);
      if found.Failure? {
        return Failure(found.error);
      }
      return Success(found.value.Some?);
    }

    /**
     * `login_user`: an unknown email is "Invald email or password", a
     * password that does not verify against the first user with that email
     * is "Invalid password", and otherwise that user is logged in.
     */
    function LoginOutcome(body: LoginUserSchema): (r: Result<User, string>)
      reads this
      ensures unavailable.Some? ==> r == Failure(unavailable.value)
      ensures unavailable.None? && !HasEmail(users, body.email) ==> r == Failure(InvalidEmailOrPassword)
      ensures unavailable.None? && HasEmail(users, body.email) ==>
        var user := FirstWithEmail(users, body.email).value;
        (VerifyUserPassword(user, body.password) ==> r == Success(user))
        && (!VerifyUserPassword(user, body.password) ==> r == Failure(InvalidPassword))
      ensures r.Success? ==> r.value in users && r.value.email == body.email && VerifyUserPassword(r.value, body.password)
    {
      if unavailable.Some? then Failure(unavailable.value)
      else match FirstWithEmail(users, body.email)
        case None => Failure(InvalidEmailOrPassword)
        case Some(user) => if VerifyUserPassword(user, body.password) then Success(user) else Failure(InvalidPassword)
    }

    method LoginUser(body: LoginUserSchema) returns (r: Result<User, string>)
      ensures r == LoginOutcome(body)
    {
      var found := FetchUserByEmail(body.email);
      if found.Failure? {
        return Failure(found.error);
      }
      if found.value.None? {
        return Failure(InvalidEmailOrPassword);
      }
      var user := found.value.value;
      if !VerifyUserPassword(user, body.password) {
        return Failure(InvalidPassword);
      }
      return Success(user);
    }

    /** `hash_password` with the salt drawn for this call. */
    function HashPassword(password: string, salt: string): (r: Result<string, string>)
      ensures r.Success? <==> hasher(password, salt).Success?
      ensures hasher(password, salt).Failure? ==> r == Failure(HashFailurePrefix + hasher(password, salt).error)
      ensures hasher(password, salt).Success? ==> r == Success(hasher(password, salt).value)
    {
      match hasher(password, salt)
      case Success(hash) => Success(hash)
      case Failure(e) => Failure(HashFailurePrefix + e)
    }

    /**
     * `create_user`: an email already in the table is "User already exists"
     * whatever hashing would give; otherwise the password is hashed and the
     * row is appended with the hash in place of the password.
     */
    function CreateUserChange(data: CreateUser, salt: string, generated: Generated): (c: Change<User>)
      reads this
      ensures c.result.Failure? ==> c.users == users
      ensures unavailable.Some? ==> c.result == Failure(unavailable.value)
      ensures unavailable.None? && HasEmail(users, data.email) ==> c.result == Failure(UserAlreadyExists)
      ensures unavailable.None? && !HasEmail(users, data.email) && hasher(data.password, salt).Failure? ==>
        c.result == Failure(HashFailurePrefix + hasher(data.password, salt).error)
      ensures unavailable.None? && !HasEmail(users, data.email) && hasher(data.password, salt).Success? ==>
        c.result == Success(NewRow(data, hasher(data.password, salt).value, generated)) && c.users == users + [c.result.value]
    {
      if unavailable.Some? then Change(Failure(unavailable.value), users)
      else if HasEmail(users, data.email) then Change(Failure(UserAlreadyExists), users)
      else match HashPassword(data.password, salt)
        case Failure(e) => Change(Failure(e), users)
        case Success(hash) =>
          var user := NewRow(data, hash, generated);
          Change(Success(user), users + [user])
    }

    method CreateUser(data: CreateUser, salt: string, generated: Generated) returns (r: Result<User, string>)
      modifies this`users
      ensures r == old(CreateUserChange(data, salt, generated)).result
      ensures users == old(CreateUserChange(data, salt, generated)).users
    {
      var exists_ := UserExists(data.email);
      if exists_.Failure? {
        return Failure(exists_.error);
      }
      if exists_.value {
        return Failure(UserAlreadyExists);
      }
      var hash := HashPassword(data.password, salt);
      if hash.Failure? {
        return Failure(hash.error);
      }
      var user := NewRow(data, hash.value, generated);
      users := users + [user];
      return Success(user);
    }

    /** `register_user`. */
    method RegisterUser(body: RegisterUserSchema, role: Option<string>, salt: string, generated: Generated) returns (r: Result<User, string>)
      modifies this`users
      ensures r == old(CreateUserChange(Registration(body, role), salt, generated)).result
      ensures users == old(CreateUserChange(Registration(body, role), salt, generated)).users
    {
      r := CreateUser(Registration(body, role), salt, generated);
    }

    /** `delete_user`. */
    function DeleteUserChange(id: string): (c: Change<()>)
      reads this
      ensures unavailable.Some? ==> c == Change(Failure(unavailable.value), users)
      ensures unavailable.None? ==> c.result == Success(()) && FirstWithId(c.users, id).None?
      ensures unavailable.None? ==> forall u :: u in c.users <==> u in users && u.id.text != id
    {
      if unavailable.Some? then Change(Failure(unavailable.value), users)
      else Change(Success(()), Without(users, id))
    }

    method DeleteUser(id: string) returns (r: Result<(), string>)
      modifies this`users
      ensures r == old(DeleteUserChange(id)).result && users == old(DeleteUserChange(id)).users
    {
      if unavailable.Some? {
        return Failure(unavailable.value);
      }
      users := Without(users, id);
      return Success(());
    }

    /**
     * `update_user_password`: the password is hashed before the database is
     * reached, and the hash, never the password, replaces the stored one.
     */
    function UpdateUserPasswordChange(id: string, password: string, salt: string): (c: Change<()>)
      reads this
      ensures c.result.Failure? ==> c.users == users
      ensures hasher(password, salt).Failure? ==> c.result == Failure(HashFailurePrefix + hasher(password, salt).error)
      ensures hasher(password, salt).Success? && unavailable.Some? ==> c.result == Failure(unavailable.value)
      ensures hasher(password, salt).Success? && unavailable.None? ==>
        c.result == Success(()) && c.users == SetPassword(users, id, hasher(password, salt).value)
    {
      match HashPassword(password, salt)
      case Failure(e) => Change(Failure(e), users)
      case Success(hash) =>
        if unavailable.Some? then Change(Failure(unavailable.value), users)
        else Change(Success(()), SetPassword(users, id, hash))
    }

    method UpdateUserPassword(id: string, password: string, salt: string) returns (r: Result<(), string>)
      modifies this`users
      ensures r == old(UpdateUserPasswordChange(id, password, salt)).result
      ensures users == old(UpdateUserPasswordChange(id, password, salt)).users
    {
      var hash := HashPassword(password, salt);
      if hash.Failure? {
        return Failure(hash.error);
      }
      if unavailable.Some? {
        return Failure(unavailable.value);
      }
      users := SetPassword(users, id, hash.value);
      return Success(());
    }

    /**
     * `update_user`: the matching rows are revised and the first of them is
     * returned; with none, `fetch_one` fails (the UPDATE itself then changed
     * nothing).
     */
    function UpdateUserChange(data: UpdateUserData, now: Timestamp): (c: Change<User>)
      reads this
      ensures unavailable.Some? ==> c == Change(Failure(unavailable.value), users)
      ensures unavailable.None? && FirstWithId(users, data.id).None? ==> c == Change(Failure(NoRows), users)
      ensures unavailable.None? && FirstWithId(users, data.id).Some? ==>
        && c.result == Success(Revised(FirstWithId(users, data.id).value, data, now))
        && c.users == ApplyUpdate(users, data, now)
    {
      if unavailable.Some? then Change(Failure(unavailable.value), users)
      else
        var updated := ApplyUpdate(users, data, now);
        match FirstWithId(users, data.id)
        case None =>
          assert updated == users;
          Change(Failure(NoRows), updated)
        case Some(before) => Change(Success(Revised(before, data, now)), updated)
    }

    method UpdateUser(data: UpdateUserData, now: Timestamp) returns (r: Result<User, string>)
      modifies this`users
      ensures r == old(UpdateUserChange(data, now)).result && users == old(UpdateUserChange(data, now)).users
    {
      if unavailable.Some? {
        return Failure(unavailable.value);
      }
      var before := FirstWithId(users, data.id);
      users := ApplyUpdate(users, data, now);
      if before.None? {
        assert users == old(users);
        return Failure(NoRows);
      }
      return Success(Revised(before.value, data, now));
    }
  }

  /** The row `create_user.sql` inserts and returns. */
  function NewRow(data: CreateUser, hash: string, generated: Generated): User {
    User(generated.id, data.name, data.email, hash, data.role, data.verified,
         Some(generated.createdAt), Some(generated.updatedAt), generated.passwordRev)
  }

  /** The `CreateUser` that `register_user` builds: role "user" unless one is given, never verified. */
  function Registration(body: RegisterUserSchema, role: Option<string>): CreateUser {
    UserModel.CreateUser.CreateUser(body.name, body.email, body.password, role.GetOr(UserRole), false)
  }

  /**
   * A password change touches only the password of the rows with that id:
   * every other column and every other row keep their values.
   */
  lemma SetPasswordTouchesOnlyPassword(rows: seq<User>, id: string, hash: string, i: nat)
    requires i < |rows|
    ensures var after := SetPassword(rows, id, hash)[i];
      && after.(password := rows[i].password) == rows[i]
      && (rows[i].id.text == id ==> after.password == hash)
      && (rows[i].id.text != id ==> after == rows[i])
  {
  }

  /** Deleting a user leaves no row with its id and keeps every other row. */
  lemma DeleteRemovesOnlyThatUser(rows: seq<User>, id: string)
    ensures FirstWithId(Without(rows, id), id).None?
    ensures forall u :: u in rows && u.id.text != id ==> u in Without(rows, id)
  {
  }

  /** The set of ids is unchanged by an update, and so is the order of the rows. */
  lemma UpdateKeepsIds(rows: seq<User>, data: UpdateUserData, now: Timestamp)
    ensures forall i :: 0 <= i < |rows| ==> ApplyUpdate(rows, data, now)[i].id == rows[i].id
    ensures forall i :: 0 <= i < |rows| ==> ApplyUpdate(rows, data, now)[i].passwordRev == rows[i].passwordRev
    ensures forall i :: 0 <= i < |rows| ==> ApplyUpdate(rows, data, now)[i].password == rows[i].password
  {
  }

  /**
   * A registration without a role leaves an unverified "user" behind, with
   * the hash as its password, and a login lookup by that email finds it.
   */
  lemma RegistrationCreatesPlainUser(store: UserStore, body: RegisterUserSchema, salt: string, generated: Generated)
    requires store.CreateUserChange(Registration(body, None), salt, generated).result.Success?
    ensures var c := store.CreateUserChange(Registration(body, None), salt, generated);
      && c.result.value.role == UserRole && !c.result.value.verified
      && c.result.value.password == store.hasher(body.password, salt).value
      && c.result.value.name == body.name && c.result.value.email == body.email
      && FirstWithEmail(c.users, body.email) == Some(c.result.value)
  {
    AppendedRowIsFoundByEmail(store.users, store.CreateUserChange(Registration(body, None), salt, generated).result.value);
  }
}
