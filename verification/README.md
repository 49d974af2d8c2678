# Voice-cloning backend, modelled in Dafny

This project models the sequential core of a small voice-cloning HTTP service (FastAPI, SQLAlchemy, python-jose). Users sign in with a Google or Firebase ID token. They upload a voice sample, which is saved under a collision-free file name, analysed and recorded. They then synthesise speech with a stored voice.

The state is abstract:
- a `users` table and a `sample_voices` table, with the schema's constraints;
- a map from file paths to bytes, and the set of existing directories;
- integer clock readings, passed in by the caller.

The code that lies outside this model is passed in as function-valued parameters:
- the inference engine;
- JWT signing and decoding;
- the Google and Firebase verifiers.

The laws the JWT library keeps are stated as the predicate `Auth.Sound`.

Module by module:
- `FileUtils` (file_utils.dfy) covers the audio MIME allow-list, pathlib's join of the upload directory and the client's file name, and the collision-avoiding save loop. `FileSystem` is a class whose `files` map and `dirs` set the methods update.
- `Schema` (database.dfy) holds the rows, the constraints every write must meet, and the writes themselves as pure functions from the old tables to the new tables or to a database error.
- `Storage` (storage.dfy) contains:
  - the record converters;
  - the pure functions that specify each store write;
  - the classes `Database`, `UserStorage` and `VoiceStorage`, whose methods change the shared `tables` and are proved equal to those functions.
- `Auth` (auth_service.dfy) covers token verification, get-or-create sign-in, token minting, and resolving a bearer token to a stored user. The class `AuthService` holds the stateful operations.
- `VoiceService` (voice_service.dfy) covers register (save, analyse, record, and compensating removal of the saved file), lookup and synthesis.
- `Errors` (exceptions.dfy) is the exception taxonomy: statuses, details and the framework's `str()` of an HTTP exception.
- `Dependencies` (dependencies.dfy) holds the request guards: the uploaded-file check and the ordered checks of the `Authorization` header.
- `Schemas` (schemas.dfy) holds the request constraints and defaults, and the response bodies.
- `AuthRoutes` (auth_routes.dfy) and `VoiceRoutes` (voice_routes.dfy) hold the endpoint handlers: exception-to-status mapping and response assembly.
- `App` (main.dfy) holds the mounted routers and the JSON error envelope.

Python's `str.lower`, `str.strip` and `str.split` are approximated on ASCII (`Text`):
- `lower` maps `A`-`Z` only;
- white space is the characters 9-13, 28-31 and 32.

`Path.stem` and `Path.suffix` follow pathlib: the suffix starts at the last `.` of the name, unless that dot is the first or the last character. So `"a."` has no suffix.

`upload_dir / filename` follows pathlib's POSIX join (`FileUtils.PathJoin`). The file name comes from the client unchanged:
- an absolute name replaces the upload directory, so `"/tmp/x.wav"` is written at `/tmp/x.wav` (`FileUtils.AbsoluteNameEscapesDir`);
- empty and `"."` parts are dropped, so `"./a.wav"` is saved as `uploads/a.wav` (`FileUtils.DotPrefixDropped`);
- `".."` parts are kept as written;
- `Path.exists()` is true for directories as well, so the name `"."`, which is the upload directory itself, is always retried (`FileUtils.DotNameRetried`).

### Where the model departs from a plain reading
- **Token expiry.** python-jose refuses a token only once `exp < now`, so a token is accepted while `now <= exp`. `Auth.Sound` states exactly that. It is not the stricter `now < exp`.
- **The missing `AuthenticationError`.** `app/core/exceptions.py` does not define `AuthenticationError`, although `auth_service.py`, `dependencies.py` and `routes/auth.py` import it. The model supplies it as one more HTTP exception, with status 401 and its message as detail. This is how `routes/auth.py:50-51` treats it.
- **Exceptions rendered by `str()`.** An HTTP exception renders as `"<status>: <detail>"`. So the issuer refusal raised inside `verify_google_token`'s `try` is caught by its own catch-all, and it reaches the caller as `"Error verifying Google token: 401: Invalid token issuer"`.
- **Route error details.** The routes' 401 and 400 details are `"401: …"` and `"400: …"`.

## Model

| member | source | states |
|---|---|---|
| FileUtils.ValidateAudioFile | app/utils/file_utils.py:36-59 | an accepted content type is at least 9 characters long and starts with "audio/" in lower case |
| FileUtils.ValidateIgnoresCase | app/utils/file_utils.py:59 | the check gives the same answer for a type and its lower-cased form; "AUDIO/WAV" and "Audio/Mpeg" are accepted |
| FileUtils.ValidateIsAllowList | app/utils/file_utils.py:46-59 | every listed type is accepted; the empty type and unlisted types such as "audio/aac" and "video/mp4" are refused |
| FileUtils.LastIndexOf | app/utils/file_utils.py:27-28 | the position of the last occurrence of a character, or -1; no occurrence follows it |
| FileUtils.BaseName | app/utils/file_utils.py:27-28 | the last path component has no '/' and is a suffix of the path |
| FileUtils.BaseNameIsLastPart | app/utils/file_utils.py:27-28 | the name of a path in normal form is its last part, and "" when it has none (".", "/", "//") |
| FileUtils.PathJoin | app/utils/file_utils.py:22 | an absolute name keeps its own root and parts; a relative name gets the directory's root, and the directory's parts followed by its own |
| FileUtils.PathOf | app/core/config.py:31-32 | `Path(s)` is in normal form and has the root and parts of `s` |
| FileUtils.NormalForm | app/core/config.py:31-32 | printing the root and parts of any string gives a path in normal form with those same root and parts |
| FileUtils.BaseNameOfJoin | app/utils/file_utils.py:22 | the last component of `dir/name` is `name` when the name has no '/' |
| FileUtils.Root | app/utils/file_utils.py:22 | pathlib's root: none exactly for a path not starting with '/', otherwise "/" or "//" |
| FileUtils.PlainParts | app/utils/file_utils.py:22 | a name without '/' other than "" and "." is a relative path with that one part, in normal form |
| FileUtils.JoinBelow | app/utils/file_utils.py:22 | a relative name with parts is joined below a normal directory with one '/' between them |
| FileUtils.PlainJoin | app/utils/file_utils.py:22-29 | joining a plain name to a directory in normal form (".", "/" and "//" included) is `Join`, whose last component is the name |
| FileUtils.BareDirJoin | app/utils/file_utils.py:22 | a plain name joined below "." is the name alone, and below "/" it is "/" followed by the name |
| FileUtils.AbsoluteNameReplacesDir | app/utils/file_utils.py:22 | an absolute name "/a/b" is joined to itself, whatever the directory |
| FileUtils.DotPrefixDropped | app/utils/file_utils.py:22 | "./a" is joined as "dir/a" |
| FileUtils.EmptyPartDropped | app/utils/file_utils.py:22 | "a//b" is joined as "dir/a/b" |
| FileUtils.DotNameIsDir | app/utils/file_utils.py:22 | the name "." is joined to the directory itself |
| FileUtils.SuffixStart | app/utils/file_utils.py:27-28 | the suffix, when there is one, starts at the last '.', which is neither the first nor the last character |
| FileUtils.StemSuffix | app/utils/file_utils.py:27-29 | stem followed by suffix gives back the name; a non-empty suffix is a '.' and at least one more character after a non-empty stem |
| FileUtils.Stem | app/utils/file_utils.py:27 | the stem is a prefix of the name, and is empty only for the empty name |
| FileUtils.Suffix | app/utils/file_utils.py:28 | the suffix ends the name; it is empty, or a '.' followed by at least one character and no further '.' |
| FileUtils.RetryName | app/utils/file_utils.py:29 | each retry name is at least two characters longer than the candidate it replaces, and has no '/' if the candidate had none |
| FileUtils.FreeName | app/utils/file_utils.py:25-30 | the name the retry loop settles on is free in the directory |
| FileUtils.FreePath | app/utils/file_utils.py:22-30 | the chosen path is not among the existing paths |
| FileUtils.PassesBounded | app/utils/file_utils.py:26-30 | the loop makes at most as many retries as there are existing files |
| FileUtils.RetryKeepsSuffix | app/utils/file_utils.py:27-29 | a retry keeps the candidate's suffix, for a name that does not end in '.' |
| FileUtils.RetryKeepsDottedSuffix | app/utils/file_utils.py:27-29 | a retry of a name with a suffix keeps that suffix |
| FileUtils.RetryKeepsNoSuffix | app/utils/file_utils.py:27-29 | a retry of a name without a suffix (and not ending in '.') still has none |
| FileUtils.FreePathKeepsSuffix | app/utils/file_utils.py:22-30 | the saved file keeps the suffix of the first candidate's last component (for a plain name, the suffix of the uploaded name) |
| FileUtils.AbsoluteNameEscapesDir | app/utils/file_utils.py:22-30 | an absolute upload name is written where it points, outside the upload directory, when that path is free; when it is taken, the retries are made inside the directory from its last component |
| FileUtils.DotNameRetried | app/utils/file_utils.py:19-30 | the name "." names the existing upload directory, so the file is saved under the retry name of the directory's own last component |
| FileUtils.DotInWorkingDirRetried | app/utils/file_utils.py:19-30 | with the upload directory ".", the name "." is the directory itself, whose name is "", so the retries start from "_1" |
| FileUtils.RetryStep | app/utils/file_utils.py:26-30 | one pass of the loop: the next candidate is plain, is joined as `Join`, leaves the specified choice and the remaining passes unchanged, and leaves fewer longer existing paths |
| FileUtils.StemIsReread | app/utils/file_utils.py:26-30 | with `s.ext` and `s_1.ext` taken, the file is saved as `s_1_2.ext`, not `s_2.ext` |
| FileUtils.SecondRetry | app/utils/file_utils.py:27-29 | the second retry appends `_2` to the stem of the first retry's candidate |
| FileUtils.RetryOfPlainName | app/utils/file_utils.py:29 | a retry inserts `_<counter>` between the stem and the extension |
| FileUtils.TrailingDotGainsSuffix | app/utils/file_utils.py:27-29 | "a." has no suffix, so its retry "a._1" gains the suffix "._1" |
| FileUtils.SavePath | app/utils/file_utils.py:19-30 | the path written is neither an existing file, nor an existing directory, nor the upload directory |
| FileUtils.FileSystem.Exists | app/utils/file_utils.py:26 | a path exists exactly when a file or a directory is there |
| FileUtils.FileSystem.Unlink | app/services/voice_service.py:74 | removing a file removes exactly that path and no directory |
| FileUtils.FileSystem.MakeDir | app/utils/file_utils.py:19 | the directory exists afterwards; files are unchanged |
| FileUtils.FileSystem.FindFreePath | app/utils/file_utils.py:22-30 | for any directory pathlib can hold ("." and "/" included), the loop returns a path at which nothing exists, equal to the specified choice; the joined name itself when it is free; the number of passes is bounded by the number of existing paths |
| FileUtils.FileSystem.SaveVoiceFile | app/utils/file_utils.py:7-33 | for any upload directory pathlib can hold, the directory is created; the returned path was free before; the file set is the old one plus exactly that path, holding the given bytes |
| Schema.EmailsUnique | app/models/database.py:25 | no two stored users share an e-mail |
| Schema.InsertUser | app/models/database.py:19-29 | an insert succeeds exactly when no constraint is broken; it adds exactly the new row under a fresh id and keeps the schema invariants |
| Schema.DuplicateEmailRefused | app/models/database.py:25 | a second user with an e-mail already stored is refused with a duplicate-e-mail error |
| Schema.ReplaceUser | app/models/database.py:25-28 | an update of a user row that keeps its e-mail succeeds exactly when the row fits its columns, and keeps the invariants |
| Schema.InsertVoice | app/models/database.py:36-55 | a voice insert succeeds exactly when no constraint is broken (width, 32-bit range, key, owner present); it adds exactly that row and keeps the invariants |
| Schema.DeleteVoice | app/models/database.py:36-47 | deleting a voice removes it, keeps every other voice and every user, and keeps the invariants |
| Schema.DeleteUser | app/models/database.py:42-47 | removing a user removes that user and, by the cascade, all its voices; every other user and voice is kept, and no row is added; the invariants hold after |
| Storage.VoiceFromModel | app/models/storage.py:41-53 | the record's nine fields are the row's id, file name, path, embedding path, duration, sample rate, name, description and creation time |
| Storage.UserFromModel | app/models/storage.py:198-207 | the record's six fields are the row's id, e-mail, name, picture, provider and creation time |
| Storage.VoiceRecordForgetsOwner | app/models/storage.py:15-53 | the voice record does not depend on the owner: it carries no user id |
| Storage.VoiceFromModelKeepsFields | app/models/storage.py:41-53 | a voice record keeps every column of its row except the owner |
| Storage.UserFromModelKeepsFields | app/models/storage.py:198-207 | a user record keeps every column of its row |
| Storage.ListsAppend | app/models/storage.py:155-173 | listing one more voice that is not listed yet keeps the list exact and free of repetition |
| Storage.ListsLength | app/models/storage.py:155-173 | an exact listing has as many records as voices |
| Storage.UserByEmail | app/models/storage.py:266-277 | a user is found exactly when one has the lower-cased query as e-mail, and that user is returned |
| Storage.UserByEmailIgnoresCase | app/models/storage.py:271 | two queries that lower-case alike find the same user |
| Storage.StoredUserFoundByEmail | app/models/storage.py:227-277 | a user just inserted is found by any spelling of the address that lower-cases to the stored e-mail |
| Storage.MixedCaseAddress | app/models/storage.py:238 | "X@Y.com" is stored and looked up as "x@y.com" |
| Storage.CreateUser | app/models/storage.py:227-251 | create succeeds exactly when the database is reachable and the row breaks no constraint; the new user has the lower-cased e-mail and provider "google" unless another is given; a failure changes nothing |
| Storage.UpdateUser | app/models/storage.py:301-326 | an unknown id gives None and changes nothing; otherwise name and picture are overwritten only where given, and id, e-mail and provider are kept; a failure changes nothing |
| Storage.CreateVoice | app/models/storage.py:73-105 | create succeeds exactly when the database is reachable and the row breaks no constraint; exactly that voice is added and its record returned; a failure changes nothing |
| Storage.RemoveVoice | app/models/storage.py:135-153 | delete answers true exactly when the voice was there; afterwards it is gone and every other voice is kept; only a failing commit fails, and then nothing changes |
| Storage.CreatedVoiceReadBack | app/models/storage.py:73-120 | after a create, reading the new id gives back exactly the given columns, and the owner is stored |
| Storage.UserStorage.constructor | app/models/storage.py:213-214 | the store uses the given database |
| Storage.UserStorage.Create | app/models/storage.py:227-251 | the method's outcome and new tables are those of `CreateUser` |
| Storage.UserStorage.Get | app/models/storage.py:253-264 | a user is returned exactly when the id is stored, as its record |
| Storage.UserStorage.GetByEmail | app/models/storage.py:266-277 | a user is returned exactly when one has the lower-cased address, and it is that stored user |
| Storage.UserStorage.Exists | app/models/storage.py:279-288 | true exactly when `Get` would return a user |
| Storage.UserStorage.ExistsByEmail | app/models/storage.py:290-299 | true exactly when `GetByEmail` would return a user |
| Storage.UserStorage.Update | app/models/storage.py:301-326 | the method's outcome and new tables are those of `UpdateUser` |
| Storage.VoiceStorage.constructor | app/models/storage.py:59-60 | the store uses the given database |
| Storage.VoiceStorage.Create | app/models/storage.py:73-105 | the method's outcome and new tables are those of `CreateVoice` |
| Storage.VoiceStorage.Get | app/models/storage.py:107-120 | a voice is returned exactly when the id is stored, as its record |
| Storage.VoiceStorage.Exists | app/models/storage.py:122-133 | true exactly when `Get` would return a voice |
| Storage.VoiceStorage.Delete | app/models/storage.py:135-153 | the method's outcome and new tables are those of `RemoveVoice` |
| Storage.VoiceStorage.Collect | app/models/storage.py:159-160 | the records of exactly the requested voices, each once |
| Storage.VoiceStorage.ListAll | app/models/storage.py:155-162 | every stored voice, each once |
| Storage.VoiceStorage.ListByUser | app/models/storage.py:164-175 | exactly the voices the user owns, each once |
| Auth.VerifyFirebaseToken | app/services/auth_service.py:129-167 | refused with the configuration message while Firebase is not initialised; otherwise accepted exactly when the verifier accepts; every failure is an authentication error; a missing email_verified reads as false |
| Auth.VerifyGoogleToken | app/services/auth_service.py:169-199 | accepted exactly when the verifier accepts and `iss` is one of the two Google issuers; every failure is an authentication error; a foreign issuer gives "Error verifying Google token: 401: Invalid token issuer" |
| Auth.VerifiedProfile | app/services/auth_service.py:320-337 | a Firebase token is refused before verification while Firebase is not initialised; otherwise the chosen verifier decides, and its e-mail and subject become the profile's |
| Auth.SignIn | app/services/auth_service.py:267-302 | a failed sign-in changes nothing; a successful one returns the stored record of the user |
| Auth.SignInWithoutEmail | app/services/auth_service.py:279-281 | a profile with a missing or empty e-mail raises the validation error and changes nothing |
| Auth.SignInExistingUser | app/services/auth_service.py:284-292 | for a stored e-mail, nobody is created and every other user's row is unchanged; the same user returns, with the profile's name and picture only where given, and the same e-mail and provider |
| Auth.SignInNewUser | app/services/auth_service.py:293-300 | for a new e-mail, exactly one user is added under the fresh id, with the lower-cased e-mail and provider "google" |
| Auth.VerifyAndSignIn | app/services/auth_service.py:304-340 | a refused token changes nothing and raises the refusal; a failed sign-in changes nothing |
| Auth.FirebaseRefusedWhenNotInitialised | app/services/auth_service.py:321-327 | a Firebase token while Firebase is not initialised is refused with the configuration message and nothing is stored |
| Auth.SignInCreatesGoogleUsers | app/services/auth_service.py:293-300 | the only user a sign-in can add has provider "google" |
| Auth.NewUsersAreGoogleUsers | app/services/auth_service.py:293-300 | a user created by verifying a token has provider "google", for Firebase and Google tokens alike |
| Auth.TokenSubject | app/services/auth_service.py:376-382 | a subject exactly when the token verifies and carries a non-empty `sub`, and it is that `sub` |
| Auth.CreateAccessToken | app/services/auth_service.py:201-224 | under a sound codec, the token decodes with the key to `sub` = the user id, the e-mail, `exp` 30 minutes after the expiry reading, `iat` the issue reading and type "access", for every `now` up to `exp`, and to nothing after |
| Auth.CreateRefreshToken | app/services/auth_service.py:226-247 | under a sound codec, the token decodes with the key to `sub` = the user id, the e-mail, `exp` 30 days after the expiry reading, `iat` the issue reading and type "refresh", for every `now` up to `exp`, and to nothing after |
| Auth.VerifyAccessToken | app/services/auth_service.py:249-265 | under a sound codec, accepted claims are ones the key signs to exactly this token, and carry no `exp` or one not yet passed |
| Auth.AccessTokenClaims | app/services/auth_service.py:201-224 | an access token decodes to `sub` = user id, the e-mail, type "access", `iat` the issue reading and `exp` 30 minutes after the expiry reading, until `exp` has passed |
| Auth.RefreshTokenAccepted | app/services/auth_service.py:226-265 | a refresh token (type "refresh", 30 days) decodes through the access-token check, and resolves to its user while unexpired |
| Auth.FreshTokenNamesUser | app/services/auth_service.py:366-384 | an unexpired access token names its user |
| Auth.ExpiredTokenRejected | app/services/auth_service.py:249-265 | an access or refresh token past its `exp` does not verify |
| Auth.ForgedTokenRejected | app/services/auth_service.py:249-265 | a token not signed with the key does not verify and names nobody |
| Auth.AuthService.constructor | app/services/auth_service.py:21-23 | the service holds the given store, verifiers, codec and key |
| Auth.AuthService.GetOrCreateUserFromGoogle | app/services/auth_service.py:267-302 | the method's outcome and new tables are those of `SignIn` |
| Auth.AuthService.VerifyTokenAndGetUser | app/services/auth_service.py:304-340 | the method's outcome and new tables are those of `VerifyAndSignIn` |
| Auth.AuthService.AuthenticateWithGoogleToken | app/services/auth_service.py:342-364 | the signed-in user and an access token minted for that very user; failures pass through |
| Auth.AuthService.GetCurrentUser | app/services/auth_service.py:366-384 | a user exactly when the token names a stored id, and it is that user |
| VoiceService.EmbeddingPathIgnoresSuffix | app/services/voice_service.py:52-54 | the embedding path depends only on the saved file's stem |
| VoiceService.StemOfDotted | app/services/voice_service.py:54 | the stem of `<dir>/<stem>.<ext>` is `<stem>` |
| VoiceService.EmbeddingPathFor | app/services/voice_service.py:54 | the embedding path is the file `<stem>.npy` directly inside the embedding directory |
| VoiceService.Registered | app/services/voice_service.py:52-67 | the stored row has an embedding path exactly when there is an embedding, namely `<embedding dir>/<stem>.npy`, and carries the new id, the owner, the upload's file name and path, the analysis's duration and sample rate, the given name and description, and the clock reading as creation time |
| VoiceService.Registration | app/services/voice_service.py:47-75 | the outcome of the `try` block: a failed analysis is an embedding error with its text; otherwise success exactly when `CreateVoice` of the analysed row succeeds, with its record and tables; a failed insert is an embedding error with the database error's text; every failure leaves the tables as they were |
| VoiceService.RegistrationAddsOneVoice | app/services/voice_service.py:47-69 | a successful registration adds exactly one voice, under the new id and owned by the caller, keeps every other voice and every user, and answers with the new voice's id and file path |
| VoiceService.SynthesisFailure | app/services/voice_service.py:144-147 | a not-found error passes through unchanged; any other becomes a synthesis error carrying its text |
| VoiceService.VoiceService.constructor | app/services/voice_service.py:19-21 | the service holds the given file system, store, engine and directories |
| VoiceService.VoiceService.RegisterVoice | app/services/voice_service.py:23-75 | the result and the new tables are `Registration` of the analysis of the path `SavePath` chooses; on success, the file set gains exactly that path holding the bytes; on failure, the files are as before; the upload directory exists afterwards |
| VoiceService.VoiceService.AnalyseSaved | app/services/voice_service.py:47-75 | the result and the new tables are `Registration` of the saved file's analysis; on failure, exactly the saved file is removed |
| VoiceService.VoiceService.RecordAnalysed | app/services/voice_service.py:52-75 | the result and the new tables are `Registration` of the successful analysis; on failure, exactly the saved file is removed |
| VoiceService.VoiceService.RegisterVoiceAsWritten | app/services/voice_service.py:23-75 | as written, registration always fails with an embedding error and leaves no file behind; after a successful analysis the error carries the `TypeError` about the missing `user_id` |
| VoiceService.VoiceService.Discard | app/services/voice_service.py:73-74 | the saved file is removed if present, and nothing else |
| VoiceService.VoiceService.GetVoice | app/services/voice_service.py:77-94 | the stored record exactly when the id is stored; otherwise the not-found error naming the id |
| VoiceService.VoiceService.Synthesize | app/services/voice_service.py:96-147 | not-found is decided before the text is examined; empty or blank text is refused before the engine runs; otherwise the engine gets the stripped text and the caller's rate and format, and its bytes or wrapped errors are returned |
| Errors.Status | app/core/exceptions.py:7-54 | not found is 404, authentication 401, invalid file and validation 400, embedding and synthesis 500 |
| Errors.Detail | app/core/exceptions.py:7-54 | each error's detail: exactly "Voice with ID '<id>' not found" for an unknown id, which holds the id in quotes, "Invalid audio file type: <type>." leading, the two prefixed messages, and the verbatim validation message |
| Errors.Str | app/api/routes/auth.py:51 | an HTTP exception renders as "<status>: <detail>"; any other exception as its message |
| Errors.AuthenticationStr | app/api/routes/auth.py:50-51 | an authentication error renders as "401: " followed by its message |
| Errors.ValidationStr | app/api/routes/auth.py:52-53 | a validation error renders as "400: " followed by its message |
| Dependencies.ValidateUploadedFile | app/api/dependencies.py:18-38 | a nameless file is refused before its type is examined; a missing type is checked as "" and reported as "unknown"; an accepted file is returned unchanged, exactly when the allow-list accepts its type |
| Dependencies.UnknownTypeRefused | app/api/dependencies.py:35-36 | a named file without a content type is refused as of type "unknown" |
| Dependencies.Unauthorized | app/api/dependencies.py:54-82 | the guard's errors are 401 HTTP errors carrying the given detail |
| Dependencies.BearerToken | app/api/dependencies.py:54-74 | in order: a missing or empty header, a header not of exactly two white-space separated parts, and a scheme not "bearer" ignoring case are each refused with their own 401; otherwise the second part is the token |
| Dependencies.BearerHeaderGivesToken | app/api/dependencies.py:61-63 | "<scheme> <token>" with a scheme spelled "bearer" in any case yields the token |
| Dependencies.OtherSchemeRefused | app/api/dependencies.py:63-68 | a well-formed header with another scheme is refused as an invalid scheme |
| Dependencies.BlankHeaderMalformed | app/api/dependencies.py:61-62 | a header of white space alone is present but malformed, as the function is written (HTTP servers strip such a header to empty before it gets here) |
| Dependencies.CurrentUser | app/api/dependencies.py:41-84 | every refusal is a 401; the header checks come first; then the user exactly when the token names a stored id, and "Invalid or expired token" otherwise |
| Dependencies.GetCurrentUser | app/api/dependencies.py:41-84 | the dependency's outcome is `CurrentUser` |
| Schemas.FieldErrors | app/models/schemas.py:10-19 | each field is reported exactly when it breaks its constraint |
| Schemas.ParseSynthesizeRequest | app/models/schemas.py:10-19 | omitted fields take "wav" and 22050; a body is valid exactly when the text is non-empty, the format is "wav" or "mp3" and the rate is in 8000..48000; otherwise every offending field is reported |
| Schemas.DefaultsAreValid | app/models/schemas.py:14-19 | a body with only a non-empty text is valid, with the defaults |
| Schemas.BlankTextIsValid | app/models/schemas.py:13 | white-space-only text passes the schema, and the validated request's text is still blank |
| AuthRoutes.UserView | app/api/routes/auth.py:41-48 | the response's id, e-mail, name, picture, provider and creation time are the user record's |
| AuthRoutes.RouteError | app/api/routes/auth.py:50-55 | authentication errors become 401, validation errors 400, each with the error's text; anything else becomes 500 with the endpoint's prefix |
| AuthRoutes.RefusedTokenIs401 | app/api/routes/auth.py:50-51 | a refused token answers 401 with "401: " and the refusal |
| AuthRoutes.MissingEmailIs400 | app/api/routes/auth.py:52-53 | an account without e-mail answers 400 with "400: Email not provided in Google account" |
| AuthRoutes.GoogleTokenAuth | app/api/routes/auth.py:23-55 | a missing Firebase flag means Google; the tables change as `VerifyAndSignIn` says; on success, a bearer access token for the signed-in user and that user's profile; failures are mapped by `RouteError` |
| AuthRoutes.VerifyIdToken | app/api/routes/auth.py:58-84 | the tables change as `VerifyAndSignIn` says; on success, an access and a refresh token minted for the same signed-in user; failures are mapped with the verify prefix |
| AuthRoutes.Me | app/api/routes/auth.py:87-100 | the profile of the user the header's token names, or the guard's 401 |
| AuthRoutes.MintedTokenAuthorises | app/api/dependencies.py:54-84 | an unexpired access token minted for a stored user, sent as "Bearer <token>", authenticates that user |
| VoiceRoutes.Disposition | app/api/routes/voices.py:87 | the header is `attachment; filename="` followed by "synthesized." and the format, closed by a '"' |
| VoiceRoutes.MediaType | app/api/routes/voices.py:80 | "audio/wav" exactly for "wav", "audio/mpeg" for anything else |
| VoiceRoutes.UploadVoiceSample | app/api/routes/voices.py:23-58 | the file check comes before the token check, and either refusal changes nothing; once both pass, a failed analysis is its embedding error, and otherwise the upload succeeds exactly when `CreateVoice` of the caller's analysed row does, with the new tables being `CreateVoice`'s, the stored row carrying the caller as owner and the given name and description, and the answer copying the stored id, filename, duration and sample rate with the default message; an insert failure is its embedding error; any failure leaves files and tables as they were |
| VoiceRoutes.UploadVoiceSampleAsWritten | app/api/routes/voices.py:23-58 | as written, once both guards pass every upload fails with the `TypeError` about `user_id` |
| VoiceRoutes.SynthesizeClonedVoice | app/api/routes/voices.py:61-89 | not found and blank text are refused as the service does; otherwise a failed analysis or synthesis is its wrapped error, and a successful synthesis of the stripped text is answered with exactly those bytes, the format's media type and the download name "synthesized.<format>" |
| VoiceRoutes.GetVoiceMetadata | app/api/routes/voices.py:92-109 | the seven fields of the stored voice, or the not-found error |
| App.HttpExceptionHandler | app/main.py:44-53 | the response status is the exception's; `error` is the detail, or "An error occurred" when it is empty; `detail` is the detail, or null when it is empty |
| App.Respond | app/main.py:44-53 | HTTP exceptions get the envelope; anything else the framework's plain 500 |
| App.EnvelopeWellFormed | app/main.py:50-51 | the envelope's `error` is never empty, and its `detail`, when present, equals it |
| App.UnknownVoiceAnswer | app/main.py:44-53 | an unknown voice is answered 404, with `error` exactly "Voice with ID '<id>' not found" (the id in quotes) and `detail` equal to it |
| App.SynthesisErrorsAreEnveloped | app/main.py:44-53 | a synthesis failure is answered 500 with its detail in the envelope; not found is 404 |
| App.Dispatch | app/main.py:40-41 | the mounted prefix a path falls under, "/health" or "/voices", or none; whether one of that router's routes then matches is not decided |
| App.AuthNotMounted | app/main.py:40-41 | no path under "/auth" falls under a mounted prefix, so the auth endpoints are unreachable; every path under "/voices/" falls under the voices router's prefix |
| Text.Lower | app/models/storage.py:238 | lower-casing keeps the length and maps each character on its own |
| Text.LowerIdempotent | app/models/storage.py:238 | lower-casing twice is lower-casing once |
| Text.Strip | app/services/voice_service.py:125-137 | the stripped text is empty exactly when the text is blank; otherwise it neither starts nor ends with white space |
| Text.StripOfTrimmed | app/services/voice_service.py:137 | a text without white space at either end is its own stripped form |
| Text.SplitFrom | app/api/dependencies.py:62 | every part of a split is a non-empty run of non-space characters |
| Text.SplitTwoWords | app/api/dependencies.py:62 | two words joined by a space split into exactly those two words |
| Text.SplitOfBlank | app/api/dependencies.py:62 | blank text splits into no parts |
| Text.NatToString | app/api/routes/auth.py:51 | the decimal text of a status is non-empty and all digits |

## Left out
- File I/O is a map from path to bytes and a set of directory paths. Paths are compared as strings: `..` components and symbolic links are not resolved. `mkdir(parents=True)` adds the upload directory only, not its parents.
- FileUtils.FileSystem.SaveVoiceFile: the write always succeeds. A write that fails is not modelled: a name with '/' below a directory that does not exist, a path outside the upload directory without permission, or a `mkdir` onto an existing file.
- The directory settings are fields of `VoiceService` (`uploadDir`, `embeddingDir`). Each is a `Dir`, a string in pathlib's normal form. That is every value `Path(s)` can take, "." and "/" included (`FileUtils.PathOf`). Reading them from the environment is not modelled.
- The check-then-write race on upload names is concurrency, and is not modelled.
- SQLAlchemy sessions, PostgreSQL and read failures are not modelled. A write may fail through an environmental `fault` parameter, or by breaking a constraint. Reads do not fail.
- PostgreSQL's refusal of ids that are not UUID text is not modelled. Generated UUIDs are a `newId` parameter, and a collision is a primary-key failure.
- The `updated_at` columns are not modelled. Timestamps are integer clock readings. `created_at.isoformat()` is that integer.
- `duration` is an opaque value, with no floating-point arithmetic.
- `_initialize_firebase` and `is_firebase_initialized` are reduced to the boolean `firebaseReady`.
- The inference engine (engine.py) is not part of this model. It appears only as the possibly-failing parameters `analyse` and `synthesise`.
- JWT signing and decoding and the Google and Firebase verifiers are parameters. The laws the JWT library keeps are stated as `Auth.Sound`.
- `WWW-Authenticate` response headers are not modelled.
- `HealthResponse` and health.py are not modelled.
- CORS and `create_app` wiring are not modelled, except the list of mounted routers.
- App.Dispatch: decides only which mounted prefix a path falls under. Matching the path against that router's own routes is not modelled, so a path such as "/voices/a/b" falls under "/voices" although no voice route matches it and the framework answers 404.
- `StreamingResponse` is not modelled; the model returns the whole body.
- `async` is not modelled. All calls are sequential.
- A request body that fails the schema is answered 422 by the framework before the handler runs. The model states validity (`Schemas.ParseSynthesizeRequest`) but does not build that 422 response.
- `ErrorResponse.detail`'s default of None is never used, because the handler always passes `detail`. The model's `ErrorResponse` has no default.
- The schema classes `TokenResponse`, `GoogleAuthRequest`, `UserResponse`, `IdTokenRequest` and `VerifyTokenResponse` are imported by routes/auth.py but are missing from schemas.py. Their shapes are inferred from the handlers.
- Because `AuthenticationError` is missing from exceptions.py, importing the services fails as written. The model supplies the class (see above).
- Only ASCII is handled by `Text.Lower`, `Text.Strip` and `Text.Split`. There is no Unicode case mapping or Unicode white space.
- An exception raised by `save_voice_file` itself (outside the `try` of `register_voice`) is not modelled, since the file system cannot fail here.
- FileUtils.FreePathKeepsSuffix: stated for first candidates whose last component does not end in '.'. A name ending in '.' gains a suffix on retry, which `FileUtils.TrailingDotGainsSuffix` shows.

## Findings

| source | as written | input that shows it | evidently intended | confidence | as-written member | corrected member |
|---|---|---|---|---|---|---|
| app/services/voice_service.py:59-67 | `storage.create` is called without the required `user_id`, so it raises `TypeError`; the handler at lines 71-75 removes the file and raises an embedding error | any upload whose analysis succeeds | pass the owner's id to `storage.create` so that the voice is recorded | high, not executed | VoiceService.VoiceService.RegisterVoiceAsWritten | VoiceService.VoiceService.RegisterVoice |
| app/api/routes/voices.py:45-51 | `register_voice` is called with a `user_id` keyword it does not declare, so every upload that passes both guards fails with a `TypeError` (a 500) | a valid file with a valid bearer token | `register_voice` takes the owner's id and the upload is registered for the caller | high, not executed | VoiceRoutes.UploadVoiceSampleAsWritten | VoiceRoutes.UploadVoiceSample |
