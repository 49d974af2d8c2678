/**
 * The authentication service: verifying a Google or Firebase ID token,
 * signing the user in (finding them by e-mail or creating them), minting the
 * service's own JWT access and refresh tokens, and resolving an access token
 * back to a stored user.
 *
 * JWT signing and decoding, Google's ID-token verifier and Firebase's are
 * code outside this model: each is a function-valued parameter, and the laws
 * the JWT library keeps are the predicate `Sound`. Whether the Firebase Admin
 * SDK is initialised is the flag `firebaseReady`. Clock readings are integer
 * seconds passed in by the caller.
 */
module Auth {
  import opened Wrappers
  import opened Text
  import opened Schema
  import opened Storage
  import opened Errors

  /** `ACCESS_TOKEN_EXPIRE_MINUTES` and `REFRESH_TOKEN_EXPIRE_DAYS`. */
  const AccessTokenExpireMinutes := 30
  const RefreshTokenExpireDays := 30

  /** The token lifetimes in seconds. */
  const AccessTokenLifetime := AccessTokenExpireMinutes * 60
  const RefreshTokenLifetime := RefreshTokenExpireDays * 24 * 60 * 60

  /** The claims of one of the service's JWTs; a claim a token lacks is `None`. */
  datatype Payload = Payload(
    sub: Option<string>,
    email: Option<string>,
    exp: Option<int>,
    iat: Option<int>,
    tokenType: Option<string>)

  /**
   * `jwt.encode(claims, key)` and `jwt.decode(token, key, now)` with the
   * configured algorithm; `decode` gives `None` where the library raises.
   */
  datatype JwtCodec = JwtCodec(
    encode: (Payload, string) -> string,
    decode: (string, string, int) -> Option<Payload>)

  /**
   * The laws of the JWT library: a token decodes, under the key it was signed
   * with, to the claims it was made from until its `exp` has passed (the
   * library refuses a token only once `exp < now`); and a token decodes under
   * a key only if it was signed with that key.
   */
  ghost predicate Sound(jwt: JwtCodec)
  {
    && (forall p, key, now :: jwt.decode(jwt.encode(p, key), key, now)
          == if p.exp.None? || now <= p.exp.value then Some(p) else None)
    && (forall token, key, now :: jwt.decode(token, key, now).Some? ==> exists p :: jwt.encode(p, key) == token)
  }

  /** The claims of a verified Google ID token that the service reads. */
  datatype IdInfo = IdInfo(
    iss: Option<string>,
    sub: Option<string>,
    email: Option<string>,
    name: Option<string>,
    picture: Option<string>)

  /** The claims of a verified Firebase ID token that the service reads. */
  datatype FirebaseClaims = FirebaseClaims(
    uid: Option<string>,
    email: Option<string>,
    name: Option<string>,
    picture: Option<string>,
    emailVerified: Option<bool>)

  /** How a verifier refuses a token: its invalid-token error, or any other exception (with its text). */
  datatype VerifierError = InvalidToken(message: string) | Unexpected(message: string)

  /** `id_token.verify_oauth2_token` with the configured client id. */
  type GoogleVerifier = string -> Result<IdInfo, VerifierError>

  /** `firebase_auth.verify_id_token`. */
  type FirebaseVerifier = string -> Result<FirebaseClaims, VerifierError>

  /** The user information `verify_firebase_token` extracts. */
  datatype FirebaseUser = FirebaseUser(
    sub: Option<string>,
    email: Option<string>,
    name: Option<string>,
    picture: Option<string>,
    emailVerified: bool)

  /** The claims `get_or_create_user_from_google` reads. */
  datatype Profile = Profile(
    email: Option<string>,
    name: Option<string>,
    picture: Option<string>,
    sub: Option<string>)

  const FirebaseNotInitialised :=
    "Firebase Admin SDK not initialized. Please configure Firebase credentials (FIREBASE_CREDENTIALS_PATH, "
    + "FIREBASE_PROJECT_ID, or Firebase environment variables) to use Firebase token verification."
  const FirebaseNotInitialisedForSignIn :=
    "Firebase Admin SDK not initialized. Please configure Firebase credentials to use Firebase token verification, "
    + "or use Google OAuth token instead."
  const InvalidIssuer := "Invalid token issuer"
  const EmailMissing := "Email not provided in Google account"

  /** The issuers a Google ID token may name. */
  const GoogleIssuers := ["accounts.google.com", "https://accounts.google.com"]

  /**
   * `verify_firebase_token`: refused outright while the SDK is not
   * initialised; every refusal of the verifier becomes an authentication
   * error; a missing `email_verified` claim reads as false.
   */
  function VerifyFirebaseToken(firebaseReady: bool, firebase: FirebaseVerifier, token: string)
    : (r: Result<FirebaseUser, Exc>)
    ensures r.Failure? ==> r.error.Authentication?
    ensures !firebaseReady ==> r == Failure(Authentication(FirebaseNotInitialised))
    ensures r.Success? <==> firebaseReady && firebase(token).Success?
    ensures r.Success? ==>
      var c := firebase(token).value;
      r.value == FirebaseUser(c.uid, c.email, c.name, c.picture, c.emailVerified == Some(true))
    ensures firebaseReady && firebase(token).Failure? && firebase(token).error.InvalidToken? ==>
      r.error.message == "Invalid Firebase token: " + firebase(token).error.message
  {
    if !firebaseReady then Failure(Authentication(FirebaseNotInitialised))
    else
      match firebase(token)
      case Failure(InvalidToken(m)) => Failure(Authentication("Invalid Firebase token: " + m))
      case Failure(Unexpected(m)) => Failure(Authentication("Error verifying Firebase token: " + m))
      case Success(c) => Success(FirebaseUser(c.uid, c.email, c.name, c.picture, OrElse(c.emailVerified, false)))
  }

  /**
   * `verify_google_token`: the verifier's claims, provided their `iss` is one
   * of the two Google issuers. Every failure surfaces as an authentication
   * error. The issuer check raises inside the `try`, so its 401 error is
   * caught by the catch-all and re-wrapped with its rendering
   * "401: Invalid token issuer"; a token with no `iss` claim fails on the
   * `KeyError`, whose text is "'iss'".
   */
  function VerifyGoogleToken(google: GoogleVerifier, token: string): (r: Result<IdInfo, Exc>)
    ensures r.Failure? ==> r.error.Authentication?
    ensures r.Success? <==>
      google(token).Success? && google(token).value.iss.Some? && google(token).value.iss.value in GoogleIssuers
    ensures r.Success? ==> r.value == google(token).value
    ensures google(token).Success? && google(token).value.iss.Some? && google(token).value.iss.value !in GoogleIssuers ==>
      r == Failure(Authentication("Error verifying Google token: " + ("401: " + InvalidIssuer)))
  {
    match google(token)
    case Failure(InvalidToken(m)) => Failure(Authentication("Invalid Google token: " + m))
    case Failure(Unexpected(m)) => Failure(Authentication("Error verifying Google token: " + m))
    case Success(info) =>
      if info.iss.None? then Failure(Authentication("Error verifying Google token: 'iss'"))
      else if info.iss.value !in GoogleIssuers then
        AuthenticationStr(InvalidIssuer);
        Failure(Authentication("Error verifying Google token: " + Str(Authentication(InvalidIssuer))))
      else Success(info)
  }

  /**
   * The verification step of `verify_token_and_get_user`: a Firebase token
   * is refused before any verification while the SDK is not initialised;
   * otherwise the verifier chosen by `isFirebase` decides, and its claims
   * are mapped to the profile the sign-in reads.
   */
  function VerifiedProfile(firebaseReady: bool, google: GoogleVerifier, firebase: FirebaseVerifier,
                           token: string, isFirebase: bool): (r: Result<Profile, Exc>)
    ensures r.Failure? ==> r.error.Authentication?
    ensures isFirebase && !firebaseReady ==> r == Failure(Authentication(FirebaseNotInitialisedForSignIn))
    ensures isFirebase && firebaseReady ==>
      (r.Success? <==> firebase(token).Success?)
      && (r.Success? ==> r.value.email == firebase(token).value.email && r.value.sub == firebase(token).value.uid)
    ensures !isFirebase ==>
      (r.Success? <==> VerifyGoogleToken(google, token).Success?)
      && (r.Success? ==> r.value.email == google(token).value.email && r.value.sub == google(token).value.sub)
  {
    if isFirebase then
      if !firebaseReady then Failure(Authentication(FirebaseNotInitialisedForSignIn))
      else
        match VerifyFirebaseToken(firebaseReady, firebase, token)
        case Failure(e) => Failure(e)
        case Success(u) => Success(Profile(u.email, u.name, u.picture, u.sub))
    else
      match VerifyGoogleToken(google, token)
      case Failure(e) => Failure(e)
      case Success(info) => Success(Profile(info.email, info.name, info.picture, info.sub))
  }

  /**
   * `get_or_create_user_from_google`: a profile without an e-mail is refused;
   * a user with that e-mail gets the profile's name and picture where given;
   * otherwise a new user is created with provider "google". A database error
   * propagates, with the tables as they were.
   */
  function SignIn(t: Tables, profile: Profile, newId: string, now: int, fault: Option<string>)
    : (c: Committed<UserRecord, Exc>)
    requires StoreValid(t)
    ensures StoreValid(c.tables)
    ensures c.result.Failure? ==> c.tables == t
    ensures c.result.Success? ==> c.result.value.userId in c.tables.users
    ensures c.result.Success? ==> c.result.value == UserFromModel(c.tables.users[c.result.value.userId])
  {
    if profile.email.None? || profile.email.value == "" then Committed(Failure(Validation(EmailMissing)), t)
    else
      match UserByEmail(t, profile.email.value)
      case Some(row) =>
        var u := UpdateUser(t, row.userId, profile.name, profile.picture, fault);
        if u.result.Failure? then Committed(Failure(Database(u.result.error)), t)
        else Committed(Success(UserFromModel(u.tables.users[row.userId])), u.tables)
      case None =>
        var n := CreateUser(t, profile.email.value, profile.name, profile.picture, Some("google"), newId, now, fault);
        if n.result.Failure? then Committed(Failure(Database(n.result.error)), t)
        else Committed(Success(n.result.value), n.tables)
  }

  /** A profile with no e-mail, or an empty one, is refused and nothing is stored. */
  lemma SignInWithoutEmail(t: Tables, profile: Profile, newId: string, now: int, fault: Option<string>)
    requires StoreValid(t) && (profile.email.None? || profile.email.value == "")
    ensures SignIn(t, profile, newId, now, fault) == Committed(Failure(Validation(EmailMissing)), t)
  {
  }

  /**
   * Signing in with the e-mail of a stored user creates nobody: the same user
   * comes back, with the profile's name and picture where the profile has
   * them and everything else as it was.
   */
  lemma SignInExistingUser(t: Tables, profile: Profile, id: string, newId: string, now: int, fault: Option<string>)
    requires StoreValid(t) && profile.email.Some? && profile.email.value != ""
    requires id in t.users && t.users[id].email == Lower(profile.email.value)
    ensures var c := SignIn(t, profile, newId, now, fault);
      && c.tables.users.Keys == t.users.Keys
      && (forall u :: u in t.users && u != id ==> c.tables.users[u] == t.users[u])
      && c.tables.voices == t.voices
      && (c.result.Success? ==>
            && c.result.value.userId == id
            && c.result.value.email == t.users[id].email
            && c.result.value.provider == t.users[id].provider
            && c.result.value.name == (if profile.name.Some? then profile.name else t.users[id].name)
            && c.result.value.picture == (if profile.picture.Some? then profile.picture else t.users[id].picture))
  {
    var row := UserByEmail(t, profile.email.value).value;
    EmailsUnique(t, id, row.userId);
    var u := UpdateUser(t, id, profile.name, profile.picture, fault);
    assert SignIn(t, profile, newId, now, fault) ==
      if u.result.Failure? then Committed(Failure(Database(u.result.error)), t)
      else Committed(Success(UserFromModel(u.tables.users[id])), u.tables);
  }

  /**
   * Signing in with an e-mail no user has, when it succeeds, adds exactly one
   * user, under the fresh id, with the lower-cased e-mail and provider
   * "google".
   */
  lemma SignInNewUser(t: Tables, profile: Profile, newId: string, now: int, fault: Option<string>)
    requires StoreValid(t) && profile.email.Some? && profile.email.value != ""
    requires forall id :: id in t.users ==> t.users[id].email != Lower(profile.email.value)
    ensures var c := SignIn(t, profile, newId, now, fault);
      c.result.Success? ==>
        && newId !in t.users
        && c.tables.users == t.users[newId := UserRow(newId, Lower(profile.email.value), profile.name, profile.picture, "google", now)]
        && |c.tables.users| == |t.users| + 1
        && c.result.value.userId == newId
        && c.result.value.provider == "google"
  {
  }

  /** `verify_token_and_get_user`: verification, then sign-in with the verified profile. */
  function VerifyAndSignIn(t: Tables, firebaseReady: bool, google: GoogleVerifier, firebase: FirebaseVerifier,
                           token: string, isFirebase: bool, newId: string, now: int, fault: Option<string>)
    : (c: Committed<UserRecord, Exc>)
    requires StoreValid(t)
    ensures StoreValid(c.tables)
    ensures c.result.Failure? ==> c.tables == t
    ensures VerifiedProfile(firebaseReady, google, firebase, token, isFirebase).Failure? ==>
      c.result == Failure(VerifiedProfile(firebaseReady, google, firebase, token, isFirebase).error)
  {
    match VerifiedProfile(firebaseReady, google, firebase, token, isFirebase)
    case Failure(e) => Committed(Failure(e), t)
    case Success(profile) => SignIn(t, profile, newId, now, fault)
  }

  /**
   * A Firebase token while the SDK is not initialised is refused with an
   * authentication error, whatever the verifiers would say, and nothing is stored.
   */
  lemma FirebaseRefusedWhenNotInitialised(t: Tables, google: GoogleVerifier, firebase: FirebaseVerifier,
                                          token: string, newId: string, now: int, fault: Option<string>)
    requires StoreValid(t)
    ensures VerifyAndSignIn(t, false, google, firebase, token, true, newId, now, fault)
      == Committed(Failure(Authentication(FirebaseNotInitialisedForSignIn)), t)
  {
  }

  /** The only user a sign-in can add has provider "google". */
  lemma SignInCreatesGoogleUsers(t: Tables, profile: Profile, newId: string, now: int, fault: Option<string>)
    requires StoreValid(t) && newId !in t.users
    ensures var c := SignIn(t, profile, newId, now, fault);
      newId in c.tables.users ==> c.tables.users[newId].provider == "google"
  {
    if profile.email.Some? && profile.email.value != "" && UserByEmail(t, profile.email.value).Some? {
      var id := UserByEmail(t, profile.email.value).value.userId;
      assert UpdateUser(t, id, profile.name, profile.picture, fault).tables.users.Keys == t.users.Keys;
    }
  }

  /**
   * A user created by signing in has provider "google" whether the token was
   * a Google or a Firebase token.
   */
  lemma NewUsersAreGoogleUsers(t: Tables, firebaseReady: bool, google: GoogleVerifier, firebase: FirebaseVerifier,
                               token: string, isFirebase: bool, newId: string, now: int, fault: Option<string>)
    requires StoreValid(t)
    requires newId !in t.users
    ensures var c := VerifyAndSignIn(t, firebaseReady, google, firebase, token, isFirebase, newId, now, fault);
      newId in c.tables.users ==> c.tables.users[newId].provider == "google"
  {
    var profile := VerifiedProfile(firebaseReady, google, firebase, token, isFirebase);
    if profile.Success? {
      SignInCreatesGoogleUsers(t, profile.value, newId, now, fault);
    }
  }

  /** The claims of an access token issued to `user`. */
  function AccessClaims(user: UserRecord, expiryClock: int, issueClock: int): Payload
  {
    Payload(Some(user.userId), Some(user.email), Some(expiryClock + AccessTokenLifetime), Some(issueClock), Some("access"))
  }

  /** The claims of a refresh token issued to `user`. */
  function RefreshClaims(user: UserRecord, expiryClock: int, issueClock: int): Payload
  {
    Payload(Some(user.userId), Some(user.email), Some(expiryClock + RefreshTokenLifetime), Some(issueClock), Some("refresh"))
  }

  /**
   * `create_access_token`. The clock is read twice, once for `exp`
   * (`expiryClock`) and once for `iat` (`issueClock`).
   */
  function CreateAccessToken(jwt: JwtCodec, key: string, user: UserRecord, expiryClock: int, issueClock: int): (token: string)
    ensures Sound(jwt) ==>
              forall now :: (jwt.decode(token, key, now) ==
                               if now <= expiryClock + AccessTokenLifetime then Some(AccessClaims(user, expiryClock, issueClock)) else None)
  {
    jwt.encode(AccessClaims(user, expiryClock, issueClock), key)
  }

  /** `create_refresh_token`. */
  function CreateRefreshToken(jwt: JwtCodec, key: string, user: UserRecord, expiryClock: int, issueClock: int): (token: string)
    ensures Sound(jwt) ==>
              forall now :: (jwt.decode(token, key, now) ==
                               if now <= expiryClock + RefreshTokenLifetime then Some(RefreshClaims(user, expiryClock, issueClock)) else None)
  {
    jwt.encode(RefreshClaims(user, expiryClock, issueClock), key)
  }

  /**
   * `verify_access_token`: the decoded claims, or `None` where decoding
   * raises. It never looks at the `type` claim.
   */
  function VerifyAccessToken(jwt: JwtCodec, key: string, token: string, now: int): (p: Option<Payload>)
    ensures Sound(jwt) && p.Some? ==>
      && jwt.encode(p.value, key) == token
      && (p.value.exp.None? || now <= p.value.exp.value)
  {
    jwt.decode(token, key, now)
  }

  /** The user id `get_current_user` looks up: the non-empty `sub` of a verified token. */
  function TokenSubject(jwt: JwtCodec, key: string, token: string, now: int): (s: Option<string>)
    ensures s.Some? <==>
      && VerifyAccessToken(jwt, key, token, now).Some?
      && VerifyAccessToken(jwt, key, token, now).value.sub.Some?
      && VerifyAccessToken(jwt, key, token, now).value.sub.value != ""
    ensures s.Some? ==> s == VerifyAccessToken(jwt, key, token, now).value.sub
  {
    match VerifyAccessToken(jwt, key, token, now)
    case None => None
    case Some(p) => if p.sub.None? || p.sub.value == "" then None else p.sub
  }

  /**
   * An access token verifies until `expiryClock` plus 30 minutes, and then
   * carries the user's id and e-mail, type "access" and the two clock readings.
   */
  lemma AccessTokenClaims(jwt: JwtCodec, key: string, user: UserRecord, expiryClock: int, issueClock: int, now: int)
    requires Sound(jwt)
    ensures var p := VerifyAccessToken(jwt, key, CreateAccessToken(jwt, key, user, expiryClock, issueClock), now);
      && (p.Some? <==> now <= expiryClock + AccessTokenLifetime)
      && (p.Some? ==>
            && p.value.sub == Some(user.userId) && p.value.email == Some(user.email)
            && p.value.tokenType == Some("access")
            && p.value.exp == Some(expiryClock + 30 * 60) && p.value.iat == Some(issueClock))
  {
  }

  /**
   * A refresh token verifies until `expiryClock` plus 30 days and carries type
   * "refresh"; since verification ignores the type, it resolves to its user
   * exactly as an access token does.
   */
  lemma RefreshTokenAccepted(jwt: JwtCodec, key: string, user: UserRecord, expiryClock: int, issueClock: int, now: int)
    requires Sound(jwt) && user.userId != ""
    ensures var p := VerifyAccessToken(jwt, key, CreateRefreshToken(jwt, key, user, expiryClock, issueClock), now);
      && (p.Some? <==> now <= expiryClock + 30 * 24 * 3600)
      && (p.Some? ==> p.value.tokenType == Some("refresh") && p.value.exp == Some(expiryClock + RefreshTokenLifetime))
    ensures now <= expiryClock + RefreshTokenLifetime ==>
      TokenSubject(jwt, key, CreateRefreshToken(jwt, key, user, expiryClock, issueClock), now) == Some(user.userId)
  {
  }

  /** An unexpired access token names its user. */
  lemma FreshTokenNamesUser(jwt: JwtCodec, key: string, user: UserRecord, expiryClock: int, issueClock: int, now: int)
    requires Sound(jwt) && user.userId != "" && now <= expiryClock + AccessTokenLifetime
    ensures TokenSubject(jwt, key, CreateAccessToken(jwt, key, user, expiryClock, issueClock), now) == Some(user.userId)
  {
  }

  /** An expired token, of either kind, names nobody. */
  lemma ExpiredTokenRejected(jwt: JwtCodec, key: string, user: UserRecord, expiryClock: int, issueClock: int, now: int)
    requires Sound(jwt)
    ensures now > expiryClock + AccessTokenLifetime ==>
      TokenSubject(jwt, key, CreateAccessToken(jwt, key, user, expiryClock, issueClock), now) == None
    ensures now > expiryClock + RefreshTokenLifetime ==>
      TokenSubject(jwt, key, CreateRefreshToken(jwt, key, user, expiryClock, issueClock), now) == None
  {
  }

  /** A token not signed with the service's key names nobody. */
  lemma ForgedTokenRejected(jwt: JwtCodec, key: string, token: string, now: int)
    requires Sound(jwt)
    requires forall p :: jwt.encode(p, key) != token
    ensures VerifyAccessToken(jwt, key, token, now) == None
    ensures TokenSubject(jwt, key, token, now) == None
  {
  }

  /** `AuthService`, with the verifiers, the JWT library and its key, and the user store it uses. */
  class AuthService {
    const users: UserStorage
    const firebaseReady: bool
    const google: GoogleVerifier
    const firebase: FirebaseVerifier
    const jwt: JwtCodec
    const secretKey: string

    constructor (users: UserStorage, firebaseReady: bool, google: GoogleVerifier, firebase: FirebaseVerifier,
                 jwt: JwtCodec, secretKey: string)
      ensures this.users == users && this.firebaseReady == firebaseReady
      ensures this.google == google && this.firebase == firebase
      ensures this.jwt == jwt && this.secretKey == secretKey
    {
      this.users := users;
      this.firebaseReady := firebaseReady;
      this.google := google;
      this.firebase := firebase;
      this.jwt := jwt;
      this.secretKey := secretKey;
    }

    /** `get_or_create_user_from_google`. */
    method GetOrCreateUserFromGoogle(profile: Profile, newId: string, now: int, fault: Option<string>)
      returns (r: Result<UserRecord, Exc>)
      requires users.db.Valid()
      modifies users.db
      ensures users.db.Valid()
      ensures Committed(r, users.db.tables) == SignIn(old(users.db.tables), profile, newId, now, fault)
    {
      if profile.email.None? || profile.email.value == "" {
        return Failure(Validation(EmailMissing));
      }
      var existing := users.GetByEmail(profile.email.value);
      if existing.Some? {
        var updated := users.Update(existing.value.userId, profile.name, profile.picture, fault);
        if updated.Failure? {
          return Failure(Database(updated.error));
        }
        var current := users.Get(existing.value.userId);
        r := Success(current.value);
      } else {
        var created := users.Create(profile.email.value, profile.name, profile.picture, Some("google"), newId, now, fault);
        if created.Failure? {
          return Failure(Database(created.error));
        }
        r := Success(created.value);
      }
    }

    /** `verify_token_and_get_user`. */
    method VerifyTokenAndGetUser(token: string, isFirebase: bool, newId: string, now: int, fault: Option<string>)
      returns (r: Result<UserRecord, Exc>)
      requires users.db.Valid()
      modifies users.db
      ensures users.db.Valid()
      ensures Committed(r, users.db.tables)
        == VerifyAndSignIn(old(users.db.tables), firebaseReady, google, firebase, token, isFirebase, newId, now, fault)
    {
      var profile := VerifiedProfile(firebaseReady, google, firebase, token, isFirebase);
      if profile.Failure? {
        return Failure(profile.error);
      }
      r := GetOrCreateUserFromGoogle(profile.value, newId, now, fault);
    }

    /**
     * `authenticate_with_google_token`: the signed-in user and an access
     * token minted for that very user.
     */
    method AuthenticateWithGoogleToken(token: string, isFirebase: bool, newId: string, now: int, fault: Option<string>,
                                       expiryClock: int, issueClock: int)
      returns (r: Result<(UserRecord, string), Exc>)
      requires users.db.Valid()
      modifies users.db
      ensures users.db.Valid()
      ensures var c := VerifyAndSignIn(old(users.db.tables), firebaseReady, google, firebase, token, isFirebase, newId, now, fault);
        && users.db.tables == c.tables
        && (r.Failure? <==> c.result.Failure?)
        && (r.Failure? ==> r.error == c.result.error)
        && (r.Success? ==>
              && r.value.0 == c.result.value
              && r.value.1 == CreateAccessToken(jwt, secretKey, c.result.value, expiryClock, issueClock))
    {
      var user := VerifyTokenAndGetUser(token, isFirebase, newId, now, fault);
      if user.Failure? {
        return Failure(user.error);
      }
      r := Success((user.value, CreateAccessToken(jwt, secretKey, user.value, expiryClock, issueClock)));
    }

    /**
     * `get_current_user`: the stored user the token names, or `None` when the
     * token does not verify, names nobody, or names an id not in the store.
     */
    method GetCurrentUser(token: string, now: int) returns (r: Option<UserRecord>)
      ensures var s := TokenSubject(jwt, secretKey, token, now);
        && (r.Some? <==> s.Some? && s.value in users.db.tables.users)
        && (r.Some? ==> r.value == UserFromModel(users.db.tables.users[s.value]))
    {
      var payload := VerifyAccessToken(jwt, secretKey, token, now);
      if payload.None? {
        return None;
      }
      var userId := payload.value.sub;
      if userId.None? || userId.value == "" {
        return None;
      }
      r := users.Get(userId.value);
    }
  }
}
