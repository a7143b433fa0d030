/**
 * The user handlers (src/api/v1/controllers/user_controller.rs): what a
 * user record reveals, which fields an update takes from where, the JWT
 * claims, the session cookies, and the mapping of every service error to a
 * 500 answer carrying the service's own message.
 *
 * Signing a token body (`jsonwebtoken::encode` with the default HS256
 * header) is an oracle `sign(payload)` that returns the token or the
 * encoder's error message.
 */
module UserController {
  import opened Prelude
  import opened UserModel
  import opened UserService
  import opened AuthMiddleware

  /** `filter_user_record`: the id as text, email, name, role and the verified flag. */
  function FilterUserRecord(user: User): FilteredUser {
    FilteredUser(user.id.text, user.name, user.email, user.role, user.verified)
  }

  /**
   * The filtered record shows everything it copies and nothing else: two
   * users that differ only in password hash, password revision or
   * timestamps look the same, and users that differ in a copied field do not.
   */
  lemma FilterHidesSecrets(a: User, b: User)
    ensures FilterUserRecord(a) == FilterUserRecord(b) <==>
      a.id.text == b.id.text && a.name == b.name && a.email == b.email && a.role == b.role && a.verified == b.verified
    ensures a.(password := b.password, passwordRev := b.passwordRev, createdAt := b.createdAt, updatedAt := b.updatedAt) == b ==>
      FilterUserRecord(a) == FilterUserRecord(b)
  {
  }

  /** Every service error answers 500 with the error's own text as the message. */
  function ServiceError(err: string): Fail {
    Fail(InternalServerError, err)
  }

  /** `encode_token`'s claims: the user's id and password revision as text. */
  function Claims(user: User): (c: JwtUser)
    ensures c.id == user.id.text && c.passwordRev == user.passwordRev.text
  {
    JwtUser(user.id.text, user.passwordRev.text)
  }

  /**
   * Two users give the same claims exactly when their ids and password
   * revisions agree, so a new password revision makes the old claims
   * differ from the new.
   */
  lemma ClaimsIdentifyRevision(a: User, b: User)
    ensures Claims(a) == Claims(b) <==> a.id == b.id && a.passwordRev == b.passwordRev
  {
  }

  /** How long a session lasts, in seconds: the age of the login cookie. */
  const TokenLifetime := 12 * HourSeconds

  /** The body `encode_token` signs as written: the claims and no `exp`. */
  function EncodeTokenAsWritten(user: User): (p: TokenPayload)
    ensures p.claims == Claims(user) && p.exp.None?
  {
    TokenPayload(Claims(user), None)
  }

  /** The body the session needs: the claims, expiring with the login cookie. */
  function EncodeToken(user: User, issuedAt: int): (p: TokenPayload)
    ensures p.claims == Claims(user) && p.exp == Some(issuedAt + TokenLifetime)
  {
    TokenPayload(Claims(user), Some(issuedAt + TokenLifetime))
  }

  /** Signing and checking use the same secret: a token the server signed reads back as the body it signed. */
  ghost predicate SameSecret(sign: TokenPayload -> Result<string, string>, verify: string -> Option<TokenPayload>) {
    forall p :: sign(p).Success? ==> verify(sign(p).value) == Some(p)
  }

  /**
   * As written, the token a login hands out never passes `auth`: its body has
   * no `exp`, which `Validation::default()` requires, so the cookie (or the
   * header) carrying it is answered 401 "Invalid token" for every user.
   */
  lemma AsWrittenTokenIsRejected(user: User, sign: TokenPayload -> Result<string, string>, deps: AuthDeps, authorization: Option<string>)
    requires SameSecret(sign, deps.verify)
    requires sign(EncodeTokenAsWritten(user)).Success?
    ensures Auth(Some(sign(EncodeTokenAsWritten(user)).value), authorization, deps) == Reject(Fail(Unauthorized, InvalidToken))
  {
    var token := sign(EncodeTokenAsWritten(user)).value;
    assert deps.verify(token) == Some(EncodeTokenAsWritten(user));
    assert Decode(token, deps).None?;
  }

  /**
   * With the `exp` set, a token signed for a user whose row is still there
   * lets that user in for exactly the cookie's lifetime plus the leeway, and
   * is "Invalid token" afterwards.
   */
  lemma ExpiringTokenAdmits(user: User, issuedAt: int, sign: TokenPayload -> Result<string, string>, deps: AuthDeps, authorization: Option<string>)
    requires SameSecret(sign, deps.verify)
    requires sign(EncodeToken(user, issuedAt)).Success?
    requires deps.parseUuid(user.id.text) == Some(user.id) && deps.parseUuid(user.passwordRev.text) == Some(user.passwordRev)
    requires deps.fetchUserById(user.id.text) == Success(Some(user))
    ensures var token := sign(EncodeToken(user, issuedAt)).value;
      && (Auth(Some(token), authorization, deps) == Admit(user) <==> deps.now <= issuedAt + TokenLifetime + DefaultLeeway)
      && (deps.now > issuedAt + TokenLifetime + DefaultLeeway ==> Auth(Some(token), authorization, deps) == Reject(Fail(Unauthorized, InvalidToken)))
  {
    var token := sign(EncodeToken(user, issuedAt)).value;
    assert deps.verify(token) == Some(EncodeToken(user, issuedAt));
    if deps.now <= issuedAt + TokenLifetime + DefaultLeeway {
      assert Decode(token, deps) == Some(Claims(user));
      AuthUnfold(Some(token), authorization, deps, token, Claims(user));
    }
  }

  datatype SameSite = Lax | Strict | NoRestriction

  /** The attributes of the `token` cookie; `maxAge` in seconds. */
  datatype Cookie = Cookie(name: string, value: string, path: string, maxAge: int, sameSite: SameSite, httpOnly: bool)

  const TokenCookie := "token"
  const HourSeconds := 3600

  /** The cookie `login_user_handler` sets: the token for 12 hours on every path, Lax, HTTP only. */
  function LoginCookie(token: string): (c: Cookie)
    ensures c.name == TokenCookie && c.value == token && c.maxAge == 43200
    ensures c.path == "/" && c.sameSite == Lax && c.httpOnly
  {
    Cookie(TokenCookie, token, "/", TokenLifetime, Lax, true)
  }

  /** The cookie `logout_handler` sets: an empty token whose age is one hour in the past. */
  function LogoutCookie(): (c: Cookie)
    ensures c.name == TokenCookie && c.value == "" && c.maxAge == -3600
    ensures c.path == "/" && c.sameSite == Lax && c.httpOnly
  {
    Cookie(TokenCookie, "", "/", -1 * HourSeconds, Lax, true)
  }

  /**
   * The logout cookie replaces the login cookie (same name, path and
   * attributes) and has already expired, so the browser drops the token.
   */
  lemma LogoutOverwritesLogin(token: string)
    ensures var login, logout := LoginCookie(token), LogoutCookie();
      && logout == login.(value := "", maxAge := logout.maxAge)
      && logout.maxAge < 0 < login.maxAge
  {
  }

  /** The `UpdateUserData` of `update_user`: name and email from the body, role, verified and id from the caller. */
  function SelfUpdate(caller: User, body: UpdateUser): UpdateUserData {
    UpdateUserData(body.name, body.email, caller.role, caller.verified, caller.id.text)
  }

  /** The `UpdateUserData` of `force_update_user`: everything from the body. */
  function ForceUpdate(body: ForceUpdateUser): UpdateUserData {
    UpdateUserData(body.name, body.email, body.role, body.verified, body.id)
  }

  /**
   * `update_user` cannot raise privileges: when the caller's rows in the
   * table hold the caller's role and verified flag, the update leaves every
   * role and every verified flag as it was, touches only the caller's rows,
   * and gives them the body's name and email.
   */
  lemma SelfUpdateKeepsPrivileges(rows: seq<User>, caller: User, body: UpdateUser, now: Timestamp)
    requires forall i :: 0 <= i < |rows| && rows[i].id.text == caller.id.text ==>
      rows[i].role == caller.role && rows[i].verified == caller.verified
    ensures var after := ApplyUpdate(rows, SelfUpdate(caller, body), now);
      forall i :: 0 <= i < |rows| ==>
        && after[i].role == rows[i].role && after[i].verified == rows[i].verified
        && (rows[i].id.text != caller.id.text ==> after[i] == rows[i])
        && (rows[i].id.text == caller.id.text ==> after[i].name == body.name && after[i].email == body.email)
  {
  }

  /** `force_update_user` may set any role and flag on any user the body names. */
  lemma ForceUpdateSetsPrivileges(rows: seq<User>, body: ForceUpdateUser, now: Timestamp)
    ensures var after := ApplyUpdate(rows, ForceUpdate(body), now);
      forall i :: 0 <= i < |rows| && rows[i].id.text == body.id ==>
        after[i].role == body.role && after[i].verified == body.verified && after[i].name == body.name && after[i].email == body.email
  {
  }

  /** `register_user_handler`: the body is registered with no role; a success answers the filtered user. */
  method RegisterUserHandler(store: UserStore, body: RegisterUserSchema, salt: string, generated: Generated) returns (r: Result<FilteredUser, Fail>)
    modifies store`users
    ensures var c := old(store.CreateUserChange(Registration(body, None), salt, generated));
      && store.users == c.users
      && (c.result.Failure? ==> r == Failure(ServiceError(c.result.error)))
      && (c.result.Success? ==> r == Success(FilterUserRecord(c.result.value)))
  {
    var user := store.RegisterUser(RegisterUserSchema(body.name, body.email, body.password), None, salt, generated);
    if user.Failure? {
      return Failure(ServiceError(user.error));
    }
    return Success(FilterUserRecord(user.value));
  }

  /** What `login_user_handler` answers: the token in the body and in the cookie. */
  datatype LoginAnswer = LoginAnswer(token: string, cookie: Cookie)

  /**
   * What `login_user_handler` answers once the login has an outcome: a failed
   * login or a failed signing is 500 with its message; otherwise the token
   * signed over `encode_token`'s body goes in the body and in the login cookie.
   */
  function LoginAnswerOf(login: Result<User, string>, sign: TokenPayload -> Result<string, string>): Result<LoginAnswer, Fail> {
    match login
    case Failure(err) => Failure(ServiceError(err))
    case Success(user) =>
      match sign(EncodeTokenAsWritten(user))
      case Failure(err) => Failure(ServiceError(err))
      case Success(token) => Success(LoginAnswer(token, LoginCookie(token)))
  }

  /**
   * The session a successful login hands out never works: the cookie it sets,
   * sent back on the next request, is answered 401 "Invalid token", as is
   * the token it returns, whatever `Authorization` header comes with it.
   */
  lemma LoginTokenIsRejected(login: Result<User, string>, sign: TokenPayload -> Result<string, string>, deps: AuthDeps, authorization: Option<string>)
    requires SameSecret(sign, deps.verify)
    ensures var r := LoginAnswerOf(login, sign);
      r.Success? ==>
        && r.value.cookie.value == r.value.token
        && Auth(Some(r.value.cookie.value), authorization, deps) == Reject(Fail(Unauthorized, InvalidToken))
  {
    if login.Success? && sign(EncodeTokenAsWritten(login.value)).Success? {
      AsWrittenTokenIsRejected(login.value, sign, deps, authorization);
    }
  }

  /**
   * `login_user_handler`: the answer is `LoginAnswerOf` the login's outcome,
   * so a failed login answers 500 with its message before anything is signed,
   * and a successful one sends the signed token with a 12-hour cookie.
   * Nothing in the table changes.
   */
  method LoginUserHandler(store: UserStore, body: LoginUserSchema, sign: TokenPayload -> Result<string, string>)
    returns (r: Result<LoginAnswer, Fail>)
    ensures r == LoginAnswerOf(store.LoginOutcome(body), sign)
    ensures store.LoginOutcome(body).Failure? ==> r == Failure(ServiceError(store.LoginOutcome(body).error))
    ensures store.LoginOutcome(body).Success? ==>
      var token := sign(EncodeTokenAsWritten(store.LoginOutcome(body).value));
      && (token.Failure? ==> r == Failure(ServiceError(token.error)))
      && (token.Success? ==> r == Success(LoginAnswer(token.value, LoginCookie(token.value))))
    ensures r.Success? ==> r.value.cookie.value == r.value.token && r.value.cookie.maxAge == TokenLifetime
  {
    var user := store.LoginUser(body);
    if user.Failure? {
      return Failure(ServiceError(user.error));
    }
    var token := sign(EncodeTokenAsWritten(user.value));
    if token.Failure? {
      return Failure(ServiceError(token.error));
    }
    return Success(LoginAnswer(token.value, LoginCookie(token.value)));
  }

  /** `get_me_handler`: the attached user, filtered (what it reveals is `FilterHidesSecrets`). */
  function GetMe(user: User): FilteredUser {
    FilterUserRecord(user)
  }

  /** `update_password`: the caller's own rows get the new hash. */
  method UpdatePasswordHandler(store: UserStore, caller: User, password: string, salt: string) returns (r: Result<(), Fail>)
    modifies store`users
    ensures var c := old(store.UpdateUserPasswordChange(caller.id.text, password, salt));
      && store.users == c.users
      && (c.result.Failure? ==> r == Failure(ServiceError(c.result.error)))
      && (c.result.Success? ==> r == Success(()))
  {
    var done := store.UpdateUserPassword(caller.id.text, password, salt);
    if done.Failure? {
      return Failure(ServiceError(done.error));
    }
    return Success(());
  }

  /** `update_user`. */
  method UpdateUserHandler(store: UserStore, caller: User, body: UpdateUser, now: Timestamp) returns (r: Result<(), Fail>)
    modifies store`users
    ensures var c := old(store.UpdateUserChange(SelfUpdate(caller, body), now));
      && store.users == c.users
      && (c.result.Failure? ==> r == Failure(ServiceError(c.result.error)))
      && (c.result.Success? ==> r == Success(()))
  {
    var updated := store.UpdateUser(UpdateUserData(body.name, body.email, caller.role, caller.verified, caller.id.text), now);
    if updated.Failure? {
      return Failure(ServiceError(updated.error));
    }
    return Success(());
  }

  /** `force_update_user`. */
  method ForceUpdateUserHandler(store: UserStore, body: ForceUpdateUser, now: Timestamp) returns (r: Result<(), Fail>)
    modifies store`users
    ensures var c := old(store.UpdateUserChange(ForceUpdate(body), now));
      && store.users == c.users
      && (c.result.Failure? ==> r == Failure(ServiceError(c.result.error)))
      && (c.result.Success? ==> r == Success(()))
  {
    var updated := store.UpdateUser(UpdateUserData(body.name, body.email, body.role, body.verified, body.id), now);
    if updated.Failure? {
      return Failure(ServiceError(updated.error));
    }
    return Success(());
  }

  /** `create_user`: the body's fields, role and verified flag included, go to the service unchanged. */
  method CreateUserHandler(store: UserStore, body: CreateUser, salt: string, generated: Generated) returns (r: Result<FilteredUser, Fail>)
    modifies store`users
    ensures var c := old(store.CreateUserChange(body, salt, generated));
      && store.users == c.users
      && (c.result.Failure? ==> r == Failure(ServiceError(c.result.error)))
      && (c.result.Success? ==> r == Success(FilterUserRecord(c.result.value)))
  {
    var user := store.CreateUser(UserModel.CreateUser.CreateUser(body.name, body.email, body.password, body.role, body.verified), salt, generated);
    if user.Failure? {
      return Failure(ServiceError(user.error));
    }
    return Success(FilterUserRecord(user.value));
  }

  /** `delete_user`: the id comes from the path. */
  method DeleteUserHandler(store: UserStore, id: string) returns (r: Result<(), Fail>)
    modifies store`users
    ensures var c := old(store.DeleteUserChange(id));
      && store.users == c.users
      && (c.result.Failure? ==> r == Failure(ServiceError(c.result.error)))
      && (c.result.Success? ==> r == Success(()))
  {
    var done := store.DeleteUser(id);
    if done.Failure? {
      return Failure(ServiceError(done.error));
    }
    return Success(());
  }
}
