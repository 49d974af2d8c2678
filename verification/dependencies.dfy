/**
 * The request guards the voice endpoints depend on: the uploaded-file check
 * and the resolution of the `Authorization: Bearer <token>` header to a
 * stored user. The checks run in a fixed order and the first that fails
 * decides the error.
 */
module Dependencies {
  import opened Wrappers
  import opened Text
  import opened Storage
  import opened Errors
  import opened FileUtils
  import opened Auth

  /** An uploaded file as the framework hands it over. */
  datatype Upload = Upload(filename: Option<string>, contentType: Option<string>, content: Bytes)

  const NoFile := "No file provided"
  const HeaderMissing := "Authorization header missing"
  const BadHeaderFormat := "Invalid authorization header format"
  const BadScheme := "Invalid authentication scheme"
  const BadToken := "Invalid or expired token"

  /**
   * `validate_uploaded_file`: a file without a name is refused before its
   * content type is looked at; a missing content type is checked as "" and
   * reported as "unknown"; an accepted file is passed on unchanged.
   */
  function ValidateUploadedFile(file: Upload): (r: Result<Upload, Exc>)
    ensures file.filename.None? || file.filename.value == "" ==> r == Failure(Validation(NoFile))
    ensures file.filename.Some? && file.filename.value != "" ==>
      var ct := OrElse(file.contentType, "");
      && (r.Success? <==> ValidateAudioFile(ct))
      && (r.Failure? ==> r.error == InvalidAudioFile(if ct == "" then "unknown" else ct))
    ensures r.Success? ==> r == Success(file)
  {
    if file.filename.None? || file.filename.value == "" then Failure(Validation(NoFile))
    else
      var ct := OrElse(file.contentType, "");
      if !ValidateAudioFile(ct) then Failure(InvalidAudioFile(if ct == "" then "unknown" else ct))
      else Success(file)
  }

  /** A file with no content type is always refused, as of unknown type. */
  lemma UnknownTypeRefused(file: Upload)
    requires file.filename.Some? && file.filename.value != "" && file.contentType.None?
    ensures ValidateUploadedFile(file) == Failure(InvalidAudioFile("unknown"))
  {
    ValidateIsAllowList("");
  }

  /** A 401 error with the given detail. */
  function Unauthorized(detail: string): (e: Exc)
    ensures IsHttp(e) && Status(e) == 401 && Detail(e) == detail
  {
    Http(401, detail)
  }

  /**
   * The header checks of `get_current_user`, in order: present and
   * non-empty; exactly two white-space separated parts; a scheme equal to
   * "bearer" ignoring case. The result is the token.
   */
  function BearerToken(authorization: Option<string>): (r: Result<string, Exc>)
    ensures authorization.None? || authorization.value == "" ==> r == Failure(Unauthorized(HeaderMissing))
    ensures authorization.Some? && authorization.value != "" ==>
      var parts := Split(authorization.value);
      && (|parts| != 2 ==> r == Failure(Unauthorized(BadHeaderFormat)))
      && (|parts| == 2 && Lower(parts[0]) != "bearer" ==> r == Failure(Unauthorized(BadScheme)))
      && (|parts| == 2 && Lower(parts[0]) == "bearer" ==> r == Success(parts[1]))
    ensures r.Success? ==> IsWord(r.value)
  {
    if authorization.None? || authorization.value == "" then Failure(Unauthorized(HeaderMissing))
    else
      var parts := Split(authorization.value);
      if |parts| != 2 then Failure(Unauthorized(BadHeaderFormat))
      else if Lower(parts[0]) != "bearer" then Failure(Unauthorized(BadScheme))
      else Success(parts[1])
  }

  /** A scheme spelled "bearer" in any case, a space and a token give back that token. */
  lemma BearerHeaderGivesToken(scheme: string, token: string)
    requires IsWord(scheme) && IsWord(token) && Lower(scheme) == "bearer"
    ensures BearerToken(Some(scheme + " " + token)) == Success(token)
  {
    SplitTwoWords(scheme, token);
  }

  /** Another scheme, however well formed, is refused as such. */
  lemma OtherSchemeRefused(scheme: string, token: string)
    requires IsWord(scheme) && IsWord(token) && Lower(scheme) != "bearer"
    ensures BearerToken(Some(scheme + " " + token)) == Failure(Unauthorized(BadScheme))
  {
    SplitTwoWords(scheme, token);
  }

  /**
   * A header of white space alone is present but has no parts, so it is
   * malformed. This is the function as written: HTTP servers strip the
   * white space around header values, so over HTTP such a header arrives
   * empty and is refused as missing.
   */
  lemma BlankHeaderMalformed(header: string)
    requires header != [] && IsBlank(header)
    ensures BearerToken(Some(header)) == Failure(Unauthorized(BadHeaderFormat))
  {
    SplitOfBlank(header);
  }

  /**
   * The outcome of `get_current_user` (the dependency): the header checks,
   * then the stored user the token names; every refusal is a 401, and a
   * token that names nobody in the store is refused as invalid or expired.
   */
  function CurrentUser(auth: AuthService, authorization: Option<string>, now: int): (r: Result<UserRecord, Exc>)
    reads auth.users.db
    ensures r.Failure? ==> IsHttp(r.error) && Status(r.error) == 401
    ensures BearerToken(authorization).Failure? ==> r == Failure(BearerToken(authorization).error)
    ensures BearerToken(authorization).Success? ==>
      var s := TokenSubject(auth.jwt, auth.secretKey, BearerToken(authorization).value, now);
      && (r.Success? <==> s.Some? && s.value in auth.users.db.tables.users)
      && (r.Success? ==> r.value == UserFromModel(auth.users.db.tables.users[s.value]))
      && (r.Failure? ==> r.error == Unauthorized(BadToken))
  {
    var token := BearerToken(authorization);
    if token.Failure? then Failure(token.error)
    else
      var s := TokenSubject(auth.jwt, auth.secretKey, token.value, now);
      if s.Some? && s.value in auth.users.db.tables.users then Success(UserFromModel(auth.users.db.tables.users[s.value]))
      else Failure(Unauthorized(BadToken))
  }

  /** `get_current_user` (the dependency), through the service. */
  method GetCurrentUser(auth: AuthService, authorization: Option<string>, now: int) returns (r: Result<UserRecord, Exc>)
    ensures r == CurrentUser(auth, authorization, now)
  {
    var token := BearerToken(authorization);
    if token.Failure? {
      return Failure(token.error);
    }
    var user := auth.GetCurrentUser(token.value, now);
    if user.None? {
      return Failure(Unauthorized(BadToken));
    }
    r := Success(user.value);
  }
}
