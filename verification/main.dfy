/**
 * The application: which routers are mounted, and the handler that turns
 * every application HTTP exception into the JSON error envelope.
 */
module App {
  import opened Wrappers
  import opened Text
  import opened Errors
  import opened Schemas

  /** The prefixes of the routers the application mounts; the auth router's "/auth" is not among them. */
  const MountedRouters: seq<string> := ["/health", "/voices"]

  /** A request path falls under a router prefix: the prefix itself, or the prefix and a '/'. */
  predicate UnderPrefix(path: string, prefix: string)
  {
    prefix <= path && (|path| == |prefix| || path[|prefix|] == '/')
  }

  /**
   * The mounted router whose prefix a request path falls under, if any.
   * This decides the prefix only: whether one of that router's routes then
   * matches the rest of the path is not modelled.
   */
  function Dispatch(path: string): (r: Option<string>)
    ensures r.Some? ==> r.value in MountedRouters && UnderPrefix(path, r.value)
    ensures r.None? ==> forall prefix :: prefix in MountedRouters ==> !UnderPrefix(path, prefix)
  {
    if UnderPrefix(path, MountedRouters[0]) then Some(MountedRouters[0])
    else if UnderPrefix(path, MountedRouters[1]) then Some(MountedRouters[1])
    else None
  }

  /** A response of the application to a raised exception. */
  datatype Response =
    | Json(status: nat, body: ErrorResponse)
    | PlainText(status: nat, text: string)

  /** The generic message used when an exception has no detail. */
  const GenericError := "An error occurred"

  /**
   * The HTTP-exception handler: the exception's status, and a body whose
   * `error` is the detail (or the generic message when the detail is empty)
   * and whose `detail` is the detail again, or null when it is empty.
   */
  function HttpExceptionHandler(e: Exc): (r: Response)
    requires IsHttp(e)
    ensures r.Json? && r.status == Status(e)
    ensures Detail(e) != "" ==> r.body == ErrorResponse(Detail(e), Some(Detail(e)))
    ensures Detail(e) == "" ==> r.body == ErrorResponse(GenericError, None)
  {
    var detail := Detail(e);
    Json(Status(e), ErrorResponse(if detail != "" then detail else GenericError,
                                  if detail != "" then Some(detail) else None))
  }

  /**
   * What the client receives for an exception that escapes a handler: the
   * envelope for an HTTP exception, the framework's plain 500 otherwise.
   */
  function Respond(e: Exc): (r: Response)
    ensures IsHttp(e) ==> r == HttpExceptionHandler(e)
    ensures !IsHttp(e) ==> r == PlainText(500, "Internal Server Error")
  {
    if IsHttp(e) then HttpExceptionHandler(e) else PlainText(500, "Internal Server Error")
  }

  /** The envelope never has an empty `error`, and `detail`, when present, equals it. */
  lemma EnvelopeWellFormed(e: Exc)
    requires IsHttp(e)
    ensures var r := HttpExceptionHandler(e);
      && r.body.error != ""
      && (r.body.detail.Some? ==> r.body.detail.value == r.body.error)
  {
  }

  /**
   * An unknown voice id is answered 404; both `error` and `detail` carry
   * "Voice with ID '<id>' not found", the id quoted.
   */
  lemma UnknownVoiceAnswer(voiceId: string)
    ensures var r := Respond(VoiceNotFound(voiceId));
      && r.Json? && r.status == 404
      && r.body.error == "Voice with ID '" + voiceId + "' not found"
      && IsInfix("'" + voiceId + "'", r.body.error)
      && r.body.detail == Some(r.body.error)
  {
    var d := Detail(VoiceNotFound(voiceId));
    assert |d| >= 15;
  }

  /** Every error of the synthesis endpoint reaches the client as the JSON envelope. */
  lemma SynthesisErrorsAreEnveloped(m: string, voiceId: string)
    ensures Respond(Synthesis(m)) == Json(500, ErrorResponse(Detail(Synthesis(m)), Some(Detail(Synthesis(m)))))
    ensures Respond(VoiceNotFound(voiceId)).status == 404
  {
  }

  /**
   * The authentication endpoints are not reachable: no request path under
   * "/auth" falls under a mounted prefix, while paths under "/voices/" fall
   * under the voices router's (whether a route of it matches is not decided here).
   */
  lemma AuthNotMounted(rest: string)
    ensures Dispatch("/auth" + rest) == None
    ensures Dispatch("/voices/" + rest) == Some("/voices")
  {
    var auth, voices := "/auth" + rest, "/voices/" + rest;
    assert auth[1] == 'a' && voices[1] == 'v' && voices[7] == '/';
    assert "/voices" <= voices;
  }
}
