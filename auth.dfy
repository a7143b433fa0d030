/**
 * The authentication middleware (src/api/v1/middlewares/auth.rs): where the
 * token comes from, how the `Authorization` header is normalised, and the
 * ordered cascade of checks that ends with the user attached to the request.
 * JWT decoding, UUID parsing and the user lookup are given as functions.
 */
module AuthMiddleware {
  import opened Prelude
  import opened UserModel

  const BearerPrefix := "Bearer"
  const NotLoggedIn := "You are not logged in, please provide token"
  const InvalidToken := "Invalid token"
  /** The message for a token whose user does not exist (capital T, as in the source). */
  const UnknownUserToken := "Invalid Token"
  const NotAuthorized := "You are not authorized to perform this action"

  predicate StartsWith(s: string, prefix: string) {
    |prefix| <= |s| && s[..|prefix|] == prefix
  }

  /** `p` written `k` times. */
  function Repeat(p: string, k: nat): string {
    if k == 0 then "" else p + Repeat(p, k - 1)
  }

  /** The index at which `s[from..]` stops beginning with the pattern. */
  function SkipPattern(s: string, pattern: string, from: nat): (k: nat)
    requires |pattern| > 0 && from <= |s|
    ensures from <= k <= |s|
    ensures !StartsWith(s[k..], pattern)
    decreases |s| - from
  {
    if from + |pattern| <= |s| && s[from..from + |pattern|] == pattern then SkipPattern(s, pattern, from + |pattern|)
    else
      assert from + |pattern| <= |s| ==> s[from..][..|pattern|] == s[from..from + |pattern|];
      from
  }

  /** `str::trim_start_matches(pattern)`: drop the pattern from the front as long as it is there. */
  function TrimStartMatches(s: string, pattern: string): (r: string)
    requires |pattern| > 0
    ensures !StartsWith(r, pattern)
  {
    s[SkipPattern(s, pattern, 0)..]
  }

  /** Every leading repetition of the pattern is removed, and only those. */
  lemma {:induction false} SkipPatternRepeat(pattern: string, k: nat, rest: string, from: nat, s: string)
    requires |pattern| > 0 && !StartsWith(rest, pattern)
    requires from <= |s| && s[from..] == Repeat(pattern, k) + rest
    ensures SkipPattern(s, pattern, from) == |s| - |rest|
    decreases k
  {
    if k == 0 {
      assert s[from..] == rest;
    } else {
      var tail := Repeat(pattern, k - 1) + rest;
      assert s[from..] == pattern + tail;
      assert s[from..from + |pattern|] == s[from..][..|pattern|] == pattern;
      assert s[from + |pattern|..] == s[from..][|pattern|..] == tail;
      SkipPatternRepeat(pattern, k - 1, rest, from + |pattern|, s);
    }
  }

  lemma TrimStartMatchesRepeat(pattern: string, k: nat, rest: string)
    requires |pattern| > 0 && !StartsWith(rest, pattern)
    ensures TrimStartMatches(Repeat(pattern, k) + rest, pattern) == rest
  {
    var s := Repeat(pattern, k) + rest;
    assert s[0..] == s;
    SkipPatternRepeat(pattern, k, rest, 0, s);
  }

  /** `char::is_whitespace`: the Unicode White_Space property. */
  predicate IsWhitespace(c: char) {
    || ('\t' <= c <= '\r') || c == ' ' || c == '\U{85}' || c == '\U{A0}' || c == '\U{1680}'
    || ('\U{2000}' <= c <= '\U{200A}') || c == '\U{2028}' || c == '\U{2029}' || c == '\U{202F}'
    || c == '\U{205F}' || c == '\U{3000}'
  }

  /** The first index at or after `from` that does not hold whitespace. */
  function SkipWhitespace(s: string, from: nat): (i: nat)
    requires from <= |s|
    ensures from <= i <= |s|
    ensures forall k :: from <= k < i ==> IsWhitespace(s[k])
    ensures i == |s| || !IsWhitespace(s[i])
    decreases |s| - from
  {
    if from < |s| && IsWhitespace(s[from]) then SkipWhitespace(s, from + 1) else from
  }

  /** The end of `s[lo..upto]` once trailing whitespace is dropped. */
  function BackWhitespace(s: string, lo: nat, upto: nat): (j: nat)
    requires lo <= upto <= |s|
    ensures lo <= j <= upto
    ensures forall k :: j <= k < upto ==> IsWhitespace(s[k])
    ensures j == lo || !IsWhitespace(s[j - 1])
    decreases upto
  {
    if lo < upto && IsWhitespace(s[upto - 1]) then BackWhitespace(s, lo, upto - 1) else upto
  }

  /** `str::trim`: whitespace is cut from both ends, and nothing else. */
  function Trim(s: string): (r: string)
    ensures exists i, j ::
      && 0 <= i <= j <= |s| && r == s[i..j]
      && (forall k :: 0 <= k < i ==> IsWhitespace(s[k]))
      && (forall k :: j <= k < |s| ==> IsWhitespace(s[k]))
    ensures r == [] || (!IsWhitespace(r[0]) && !IsWhitespace(r[|r| - 1]))
  {
    var i := SkipWhitespace(s, 0);
    var j := BackWhitespace(s, i, |s|);
    assert j > i ==> s[i..j][0] == s[i] && s[i..j][j - i - 1] == s[j - 1];
    s[i..j]
  }

  /** `HeaderValue::to_str`: only visible ASCII and tab make a string. */
  function HeaderToStr(value: string): (r: Option<string>)
    ensures r.Some? ==> r.value == value
    ensures r.Some? <==> forall i :: 0 <= i < |value| ==> value[i] == '\t' || ' ' <= value[i] <= '~'
  {
    if forall i :: 0 <= i < |value| ==> value[i] == '\t' || ' ' <= value[i] <= '~' then Some(value) else None
  }

  /** The token carried by an `Authorization` header value. */
  function BearerToken(headerValue: string): string {
    Trim(TrimStartMatches(headerValue, BearerPrefix))
  }

  /**
   * The `token` cookie if there is one (even empty); otherwise the
   * `Authorization` header, when it reads as a string, normalised.
   */
  function ExtractToken(cookie: Option<string>, authorization: Option<string>): (r: Option<string>)
    ensures cookie.Some? ==> r == cookie
    ensures cookie.None? ==> (r.Some? <==> authorization.Some? && HeaderToStr(authorization.value).Some?)
    ensures cookie.None? && r.Some? ==> r.value == BearerToken(authorization.value)
  {
    match cookie
    case Some(value) => Some(value)
    case None =>
      match authorization
      case None => None
      case Some(header) =>
        match HeaderToStr(header)
        case None => None
        case Some(text) => Some(BearerToken(text))
  }

  /** The header value's leading "Bearer"s go first, then the whitespace around what is left. */
  lemma BearerTokenOfRepeats(k: nat, rest: string)
    requires !StartsWith(rest, BearerPrefix)
    ensures BearerToken(Repeat(BearerPrefix, k) + rest) == Trim(rest)
  {
    TrimStartMatchesRepeat(BearerPrefix, k, rest);
  }

  /** One leading space before text that neither starts nor ends with whitespace is all `trim` removes. */
  lemma TrimLeadingSpace(core: string)
    requires |core| > 0 && !IsWhitespace(core[0]) && !IsWhitespace(core[|core| - 1])
    ensures Trim([' '] + core) == core
  {
    var s := [' '] + core;
    assert s[1] == core[0] && s[|s| - 1] == core[|core| - 1];
    assert SkipWhitespace(s, 1) == 1;
    assert SkipWhitespace(s, 0) == 1;
    assert BackWhitespace(s, 1, |s|) == |s|;
    assert s[1..|s|] == core;
  }

  /** Only the prefix glued to the front is stripped: a second "Bearer" after a space stays. */
  lemma BearerAfterSpaceStays()
    ensures BearerToken("Bearer Bearer abc") == "Bearer abc"
  {
    var core := "Bearer abc";
    var rest := [' '] + core;
    assert Repeat(BearerPrefix, 1) == BearerPrefix;
    assert "Bearer Bearer abc" == Repeat(BearerPrefix, 1) + rest;
    assert rest[..|BearerPrefix|][0] != BearerPrefix[0];
    BearerTokenOfRepeats(1, rest);
    TrimLeadingSpace(core);
  }

  /** The external collaborators of the cascade. */
  datatype AuthDeps = AuthDeps(
    verify: string -> Option<TokenPayload>,                   // the HS256 signature check with the server secret, then the JSON body
    now: int,                                                 // the clock, in seconds since the epoch
    parseUuid: string -> Option<Uuid>,                        // Uuid::parse_str
    fetchUserById: string -> Result<Option<User>, string>)    // UserPDO::fetch_user_by_id

  /** The clock skew `Validation::default()` allows, in seconds. */
  const DefaultLeeway := 60

  /**
   * The claim checks of `Validation::default()`: `exp` is a required claim,
   * and a token whose `exp` lies more than the leeway in the past has expired.
   */
  predicate DefaultValidation(payload: TokenPayload, now: int) {
    payload.exp.Some? && now - DefaultLeeway <= payload.exp.value
  }

  /** `decode::<JwtUser>(token, key, &Validation::default())`. */
  function Decode(token: string, deps: AuthDeps): (r: Option<JwtUser>)
    ensures r.Some? <==> deps.verify(token).Some? && DefaultValidation(deps.verify(token).value, deps.now)
    ensures r.Some? ==> r.value == deps.verify(token).value.claims
    ensures deps.verify(token).Some? && deps.verify(token).value.exp.None? ==> r.None?
  {
    match deps.verify(token)
    case None => None
    case Some(payload) => if DefaultValidation(payload, deps.now) then Some(payload.claims) else None
  }

  /** The middleware either answers with an error or lets the request through with the user attached. */
  datatype AuthOutcome = Reject(fail: Fail) | Admit(user: User)

  /** `auth`: the checks in the order the source makes them. */
  function Auth(cookie: Option<string>, authorization: Option<string>, deps: AuthDeps): AuthOutcome {
    match ExtractToken(cookie, authorization)
    case None => Reject(Fail(Unauthorized, NotLoggedIn))
    case Some(token) =>
      match Decode(token, deps)
      case None => Reject(Fail(Unauthorized, InvalidToken))
      case Some(claims) =>
        if deps.parseUuid(claims.id).None? then Reject(Fail(Unauthorized, InvalidToken))
        else
          match deps.parseUuid(claims.passwordRev)
          case None => Reject(Fail(Unauthorized, InvalidToken))
          case Some(passwordRev) =>
            match deps.fetchUserById(claims.id)
            case Failure(err) => Reject(InternalError(err))
            case Success(None) => Reject(Fail(Unauthorized, UnknownUserToken))
            case Success(Some(user)) =>
              if user.passwordRev != passwordRev then Reject(Fail(Unauthorized, InvalidToken))
              else Admit(user)
  }

  /** A token is valid for a user when every check of the cascade holds. */
  ghost predicate Authenticates(token: string, user: User, deps: AuthDeps) {
    exists claims: JwtUser, rev: Uuid ::
      && Decode(token, deps) == Some(claims)
      && deps.parseUuid(claims.id).Some?
      && deps.parseUuid(claims.passwordRev) == Some(rev)
      && deps.fetchUserById(claims.id) == Success(Some(user))
      && user.passwordRev == rev
  }

  /** The request goes through exactly when a token was presented and every check passes. */
  lemma AuthAdmitsExactly(cookie: Option<string>, authorization: Option<string>, deps: AuthDeps, user: User)
    ensures Auth(cookie, authorization, deps) == Admit(user) <==>
      ExtractToken(cookie, authorization).Some? && Authenticates(ExtractToken(cookie, authorization).value, user, deps)
  {
    var t := ExtractToken(cookie, authorization);
    if t.Some? && Authenticates(t.value, user, deps) {
      var claims: JwtUser, rev: Uuid :|
        && Decode(t.value, deps) == Some(claims)
        && deps.parseUuid(claims.id).Some?
        && deps.parseUuid(claims.passwordRev) == Some(rev)
        && deps.fetchUserById(claims.id) == Success(Some(user))
        && user.passwordRev == rev;
      AuthUnfold(cookie, authorization, deps, t.value, claims);
    }
    if Auth(cookie, authorization, deps) == Admit(user) {
      var claims := Decode(t.value, deps).value;
      AuthUnfold(cookie, authorization, deps, t.value, claims);
      var rev := deps.parseUuid(claims.passwordRev).value;
      assert deps.fetchUserById(claims.id) == Success(Some(user)) && user.passwordRev == rev;
    }
  }

  /** The cascade once a token was found and decoded. */
  lemma AuthUnfold(cookie: Option<string>, authorization: Option<string>, deps: AuthDeps, token: string, claims: JwtUser)
    requires ExtractToken(cookie, authorization) == Some(token)
    requires Decode(token, deps) == Some(claims)
    ensures Auth(cookie, authorization, deps) ==
      if deps.parseUuid(claims.id).None? || deps.parseUuid(claims.passwordRev).None? then Reject(Fail(Unauthorized, InvalidToken))
      else match deps.fetchUserById(claims.id)
        case Failure(err) => Reject(InternalError(err))
        case Success(None) => Reject(Fail(Unauthorized, UnknownUserToken))
        case Success(Some(u)) =>
          if u.passwordRev != deps.parseUuid(claims.passwordRev).value then Reject(Fail(Unauthorized, InvalidToken))
          else Admit(u)
  {
  }

  /** Without a token, or with one that does not decode, the answer is 401. */
  lemma AuthRejectsUnreadableToken(cookie: Option<string>, authorization: Option<string>, deps: AuthDeps)
    ensures ExtractToken(cookie, authorization).None? ==>
      Auth(cookie, authorization, deps) == Reject(Fail(Unauthorized, NotLoggedIn))
    ensures ExtractToken(cookie, authorization).Some? && Decode(ExtractToken(cookie, authorization).value, deps).None? ==>
      Auth(cookie, authorization, deps) == Reject(Fail(Unauthorized, InvalidToken))
  {
  }

  /** A token whose body has no `exp` claim, or an `exp` past the leeway, is 401 "Invalid token" whatever it names. */
  lemma ExpiryIsRequired(cookie: Option<string>, authorization: Option<string>, deps: AuthDeps)
    requires ExtractToken(cookie, authorization).Some?
    requires deps.verify(ExtractToken(cookie, authorization).value).Some?
    ensures var payload := deps.verify(ExtractToken(cookie, authorization).value).value;
      !DefaultValidation(payload, deps.now) ==> Auth(cookie, authorization, deps) == Reject(Fail(Unauthorized, InvalidToken))
    ensures var payload := deps.verify(ExtractToken(cookie, authorization).value).value;
      (payload.exp.None? || payload.exp.value < deps.now - DefaultLeeway) ==> !DefaultValidation(payload, deps.now)
  {
  }

  /** `is_admin`: no attached user is 401, a user other than an admin is 403. */
  function IsAdminGate(attached: Option<User>): (r: Option<Fail>)
    ensures attached.None? ==> r == Some(Fail(Unauthorized, NotLoggedIn))
    ensures attached.Some? ==> (r.None? <==> attached.value.role == AdminRole)
    ensures attached.Some? && r.Some? ==> r.value == Fail(Forbidden, NotAuthorized)
  {
    match attached
    case None => Some(Fail(Unauthorized, NotLoggedIn))
    case Some(user) => if !IsAdmin(user) then Some(Fail(Forbidden, NotAuthorized)) else None
  }
}
