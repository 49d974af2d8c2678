/**
 * The authentication endpoints under `/auth`: token exchange, token
 * verification and the current user's profile. Each sign-in endpoint turns
 * the service's exceptions into HTTP errors: authentication errors become
 * 401, validation errors 400 and anything else 500, each carrying the
 * rendered text of the original exception.
 */
module AuthRoutes {
  import opened Wrappers
  import opened Text
  import opened Storage
  import opened Errors
  import opened Auth
  import opened Dependencies

  /** The user part of a token response, and the body of `/auth/me`. */
  datatype UserResponse = UserResponse(
    id: string,
    email: string,
    name: Option<string>,
    picture: Option<string>,
    provider: string,
    createdAt: int)

  /** The body of `/auth/google/token`. */
  datatype TokenResponse = TokenResponse(accessToken: string, tokenType: string, user: UserResponse)

  /** The body of `/auth/verify`. */
  datatype VerifyTokenResponse = VerifyTokenResponse(accessToken: string, refreshToken: string)

  const SignInPrefix := "Authentication error: "
  const VerifyPrefix := "Error verifying token: "

  /** The public view of a user record. */
  function UserView(u: UserRecord): (r: UserResponse)
    ensures r.id == u.userId && r.email == u.email && r.name == u.name
    ensures r.picture == u.picture && r.provider == u.provider && r.createdAt == u.createdAt
  {
    UserResponse(u.userId, u.email, u.name, u.picture, u.provider, u.createdAt)
  }

  /**
   * The `except` chain of the sign-in endpoints: the HTTP error an
   * exception of the service becomes, `prefix` naming the endpoint.
   */
  function RouteError(e: Exc, prefix: string): (h: Exc)
    ensures IsHttp(h) && h.Http?
    ensures Status(h) == 401 <==> e.Authentication?
    ensures Status(h) == 400 <==> e.Validation?
    ensures Status(h) == 500 <==> !e.Authentication? && !e.Validation?
    ensures Detail(h) == (if e.Authentication? || e.Validation? then Str(e) else prefix + Str(e))
  {
    if e.Authentication? then Http(401, Str(e))
    else if e.Validation? then Http(400, Str(e))
    else Http(500, prefix + Str(e))
  }

  /** A refused token ends as a 401 whose detail is "401: " and the refusal. */
  lemma RefusedTokenIs401(message: string, prefix: string)
    ensures RouteError(Authentication(message), prefix) == Http(401, "401: " + message)
  {
    AuthenticationStr(message);
  }

  /** A Google account without an address ends as a 400 whose detail names the problem. */
  lemma MissingEmailIs400(prefix: string)
    ensures RouteError(Validation(EmailMissing), prefix) == Http(400, "400: " + EmailMissing)
  {
    ValidationStr(EmailMissing);
  }

  /**
   * `POST /auth/google/token`: sign in with the token (a Google token unless
   * the request says Firebase) and answer with an access token for the
   * signed-in user and that user's profile.
   */
  method GoogleTokenAuth(service: AuthService, code: string, firebaseToken: Option<bool>,
                         newId: string, now: int, fault: Option<string>, expiryClock: int, issueClock: int)
    returns (r: Result<TokenResponse, Exc>)
    requires service.users.db.Valid()
    modifies service.users.db
    ensures service.users.db.Valid()
    ensures var c := VerifyAndSignIn(old(service.users.db.tables), service.firebaseReady, service.google,
                                     service.firebase, code, OrElse(firebaseToken, false), newId, now, fault);
      && service.users.db.tables == c.tables
      && (r.Success? <==> c.result.Success?)
      && (r.Failure? ==> r.error == RouteError(c.result.error, SignInPrefix))
      && (r.Success? ==>
            && r.value.tokenType == "bearer"
            && r.value.user == UserView(c.result.value)
            && r.value.accessToken == CreateAccessToken(service.jwt, service.secretKey, c.result.value, expiryClock, issueClock))
  {
    var signedIn := service.AuthenticateWithGoogleToken(code, OrElse(firebaseToken, false), newId, now, fault,
                                                        expiryClock, issueClock);
    if signedIn.Failure? {
      return Failure(RouteError(signedIn.error, SignInPrefix));
    }
    var (user, accessToken) := signedIn.value;
    r := Success(TokenResponse(accessToken, "bearer", UserView(user)));
  }

  /**
   * `POST /auth/verify`: sign in with the token and answer with an access
   * and a refresh token, both for the signed-in user. The clock is read
   * twice by each token.
   */
  method VerifyIdToken(service: AuthService, idToken: string, isFirebase: Option<bool>,
                       newId: string, now: int, fault: Option<string>,
                       accessExpiryClock: int, accessIssueClock: int, refreshExpiryClock: int, refreshIssueClock: int)
    returns (r: Result<VerifyTokenResponse, Exc>)
    requires service.users.db.Valid()
    modifies service.users.db
    ensures service.users.db.Valid()
    ensures var c := VerifyAndSignIn(old(service.users.db.tables), service.firebaseReady, service.google,
                                     service.firebase, idToken, OrElse(isFirebase, false), newId, now, fault);
      && service.users.db.tables == c.tables
      && (r.Success? <==> c.result.Success?)
      && (r.Failure? ==> r.error == RouteError(c.result.error, VerifyPrefix))
      && (r.Success? ==>
            && r.value.accessToken == CreateAccessToken(service.jwt, service.secretKey, c.result.value,
                                                        accessExpiryClock, accessIssueClock)
            && r.value.refreshToken == CreateRefreshToken(service.jwt, service.secretKey, c.result.value,
                                                          refreshExpiryClock, refreshIssueClock))
  {
    var user := service.VerifyTokenAndGetUser(idToken, OrElse(isFirebase, false), newId, now, fault);
    if user.Failure? {
      return Failure(RouteError(user.error, VerifyPrefix));
    }
    var accessToken := CreateAccessToken(service.jwt, service.secretKey, user.value, accessExpiryClock, accessIssueClock);
    var refreshToken := CreateRefreshToken(service.jwt, service.secretKey, user.value, refreshExpiryClock, refreshIssueClock);
    r := Success(VerifyTokenResponse(accessToken, refreshToken));
  }

  /**
   * `GET /auth/me`: the profile of the user the bearer token names; every
   * refusal is a 401.
   */
  method Me(service: AuthService, authorization: Option<string>, now: int) returns (r: Result<UserResponse, Exc>)
    ensures r.Success? <==> CurrentUser(service, authorization, now).Success?
    ensures r.Failure? ==> r == Failure(CurrentUser(service, authorization, now).error)
    ensures r.Success? ==> r.value == UserView(CurrentUser(service, authorization, now).value)
  {
    var user := GetCurrentUser(service, authorization, now);
    if user.Failure? {
      return Failure(user.error);
    }
    r := Success(UserView(user.value));
  }

  /**
   * A token the service minted for a stored user, presented unexpired in a
   * "Bearer <token>" header (the scheme spelled in any case), authenticates
   * that very user.
   */
  lemma MintedTokenAuthorises(auth: AuthService, user: UserRecord, scheme: string,
                              expiryClock: int, issueClock: int, now: int)
    requires Sound(auth.jwt) && user.userId != "" && user.userId in auth.users.db.tables.users
    requires now <= expiryClock + AccessTokenLifetime
    requires IsWord(scheme) && Lower(scheme) == "bearer"
    requires IsWord(CreateAccessToken(auth.jwt, auth.secretKey, user, expiryClock, issueClock))
    ensures var token := CreateAccessToken(auth.jwt, auth.secretKey, user, expiryClock, issueClock);
      CurrentUser(auth, Some(scheme + " " + token), now)
        == Success(UserFromModel(auth.users.db.tables.users[user.userId]))
  {
    var token := CreateAccessToken(auth.jwt, auth.secretKey, user, expiryClock, issueClock);
    BearerHeaderGivesToken(scheme, token);
    FreshTokenNamesUser(auth.jwt, auth.secretKey, user, expiryClock, issueClock, now);
  }
}
