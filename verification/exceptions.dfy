/**
 * The exceptions that cross the service's layers. The first five are the
 * application's own HTTP exceptions; `Authentication` stands for
 * `AuthenticationError`, which the services and routes import from the
 * exceptions module although that module does not define it (so importing
 * them fails as written); it is modelled as one more HTTP exception with
 * status 401 whose detail is its message, the way the auth routes treat it.
 * `Http` is a bare framework `HTTPException`, `Database` an error raised by
 * the database driver and `Other` any other Python exception.
 */
module Errors {
  import opened Text
  import Schema

  datatype Exc =
    | VoiceNotFound(voiceId: string)
    | InvalidAudioFile(contentType: string)
    | EmbeddingComputation(message: string)
    | Synthesis(message: string)
    | Validation(message: string)
    | Authentication(message: string)
    | Http(status: nat, detail: string)
    | Database(error: Schema.DbError)
    | Other(message: string)

  /** The exception is an `HTTPException`, so it has a status code and a detail. */
  predicate IsHttp(e: Exc)
  {
    !e.Database? && !e.Other?
  }

  /** `exc.status_code`. */
  function Status(e: Exc): (s: nat)
    requires IsHttp(e)
    ensures e.VoiceNotFound? <==> s == 404 && !e.Http?
    ensures e.Authentication? <==> s == 401 && !e.Http?
    ensures e.InvalidAudioFile? || e.Validation? <==> s == 400 && !e.Http?
    ensures e.EmbeddingComputation? || e.Synthesis? <==> s == 500 && !e.Http?
  {
    match e
    case VoiceNotFound(_) => 404
    case InvalidAudioFile(_) => 400
    case EmbeddingComputation(_) => 500
    case Synthesis(_) => 500
    case Validation(_) => 400
    case Authentication(_) => 401
    case Http(s, _) => s
  }

  /** `exc.detail`. */
  function Detail(e: Exc): (d: string)
    requires IsHttp(e)
    ensures e.VoiceNotFound? ==> d == "Voice with ID '" + e.voiceId + "' not found"
    ensures e.VoiceNotFound? ==> IsInfix("'" + e.voiceId + "'", d)
    ensures e.InvalidAudioFile? ==> "Invalid audio file type: " + e.contentType + "." <= d
    ensures e.EmbeddingComputation? ==> d == "Failed to compute speaker embedding: " + e.message
    ensures e.Synthesis? ==> d == "Speech synthesis failed: " + e.message
    ensures e.Validation? || e.Authentication? ==> d == e.message
  {
    match e
    case VoiceNotFound(id) =>
      var d := "Voice with ID '" + id + "' not found";
      assert d == "Voice with ID " + ("'" + id + "'") + " not found";
      assert OccursAt("'" + id + "'", d, 14);
      d
    case InvalidAudioFile(t) =>
      var lead := "Invalid audio file type: " + t + ".";
      var d := lead + " Supported: wav, mp3, m4a, ogg, webm, flac";
      assert d[..|lead|] == lead;
      d
    case EmbeddingComputation(m) => "Failed to compute speaker embedding: " + m
    case Synthesis(m) => "Speech synthesis failed: " + m
    case Validation(m) => m
    case Authentication(m) => m
    case Http(_, d) => d
  }

  /**
   * `str(exc)`. The framework renders an HTTP exception as
   * "<status_code>: <detail>"; a driver error or any other exception as its
   * message.
   */
  function Str(e: Exc): (s: string)
    ensures IsHttp(e) ==> NatToString(Status(e)) + ": " + Detail(e) == s
    ensures e.Other? ==> s == e.message
  {
    match e
    case Database(err) => Schema.DbErrorText(err)
    case Other(m) => m
    case _ => NatToString(Status(e)) + ": " + Detail(e)
  }

  /** The decimal text of the 401 status. */
  lemma Text401()
    ensures NatToString(401) == "401"
  {
    assert NatToString(4) == "4";
    assert NatToString(40) == "40";
  }

  /** An authentication error renders as "401: " and its message. */
  lemma AuthenticationStr(m: string)
    ensures Str(Authentication(m)) == "401: " + m
  {
    Text401();
  }

  /** The decimal text of the 400 status. */
  lemma Text400()
    ensures NatToString(400) == "400"
  {
    assert NatToString(4) == "4";
    assert NatToString(40) == "40";
  }

  /** A validation error renders as "400: " and its message. */
  lemma ValidationStr(m: string)
    ensures Str(Validation(m)) == "400: " + m
  {
    Text400();
  }
}
