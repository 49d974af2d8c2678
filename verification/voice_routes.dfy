/**
 * The voice endpoints under `/voices`: upload of a sample for an
 * authenticated user, synthesis with a stored voice, and a voice's
 * metadata. The request guards run before the handler, in declaration
 * order: the file check first, then the bearer-token check.
 */
module VoiceRoutes {
  import opened Wrappers
  import opened Text
  import opened Schema
  import opened Storage
  import opened Errors
  import opened FileUtils
  import opened Auth
  import opened VoiceService
  import opened Dependencies
  import opened Schemas

  /** A streamed audio answer: the bytes, the media type and the download header. */
  datatype AudioResponse = AudioResponse(body: Bytes, mediaType: string, contentDisposition: string)

  /** The message of the `TypeError` the handler's call of `register_voice` raises. */
  const UnexpectedUserId := "VoiceService.register_voice() got an unexpected keyword argument 'user_id'"

  /** The media type of a format: "wav" is served as WAV, anything else as MPEG. */
  function MediaType(format: string): (t: string)
    ensures t == "audio/wav" <==> format == "wav"
    ensures t == "audio/mpeg" <==> format != "wav"
  {
    if format == "wav" then "audio/wav" else "audio/mpeg"
  }

  /** The `Content-Disposition` header: a download named "synthesized.<format>". */
  function Disposition(format: string): (h: string)
    ensures var lead := "attachment; filename=\"";
      && lead <= h && |h| == |lead| + |format| + 13 && h[|h| - 1] == '"'
      && h[|lead|..|h| - 1] == "synthesized." + format
  {
    "attachment; filename=\"synthesized." + format + "\""
  }

  /**
   * `POST /voices`, with the service's `register_voice` taking the owner's
   * id: a valid file uploaded by an authenticated user is saved and
   * registered for that user, and the answer describes the stored voice.
   * Any refusal leaves the files and the tables as they were.
   */
  method UploadVoiceSample(service: VoiceService, auth: AuthService, file: Upload, name: Option<string>,
                           description: Option<string>, authorization: Option<string>,
                           newId: string, now: int, fault: Option<string>)
    returns (r: Result<VoiceUploadResponse, Exc>)
    requires service.voices.db.Valid()
    modifies service.files, service.voices.db
    ensures service.voices.db.Valid()
    ensures r.Failure? ==>
      service.files.files == old(service.files.files) && service.voices.db.tables == old(service.voices.db.tables)
    ensures ValidateUploadedFile(file).Failure? ==>
      r == Failure(ValidateUploadedFile(file).error) && service.files.dirs == old(service.files.dirs)
    ensures ValidateUploadedFile(file).Success? && old(CurrentUser(auth, authorization, now)).Failure? ==>
      r == Failure(old(CurrentUser(auth, authorization, now)).error) && service.files.dirs == old(service.files.dirs)
    ensures ValidateUploadedFile(file).Success? && old(CurrentUser(auth, authorization, now)).Success? ==>
      var caller := old(CurrentUser(auth, authorization, now)).value;
      var path := SavePath(old(service.files.files).Keys, old(service.files.dirs), service.uploadDir, file.filename.value);
      var a := service.analyse(path);
      && service.files.dirs == old(service.files.dirs) + {service.uploadDir}
      && (a.Failure? ==> r == Failure(EmbeddingComputation(Str(a.error))))
      && (a.Success? ==>
            var c := CreateVoice(old(service.voices.db.tables),
                                 Registered(service.embeddingDir, caller.userId, file.filename.value, path, a.value, name, description, newId, now),
                                 fault);
            && (r.Success? <==> c.result.Success?)
            && (r.Failure? ==> r == Failure(EmbeddingComputation(Str(Database(c.result.error)))))
            && (r.Success? ==>
                  && service.voices.db.tables == c.tables
                  && service.files.files == old(service.files.files)[path := file.content]
                  && r.value == VoiceUploadResponse(c.result.value.voiceId, c.result.value.filename,
                                                    c.result.value.duration, c.result.value.sampleRate,
                                                    DefaultUploadMessage)))
    ensures r.Success? ==>
      && ValidateUploadedFile(file).Success? && old(CurrentUser(auth, authorization, now)).Success?
      && newId !in old(service.voices.db.tables.voices)
      && newId in service.voices.db.tables.voices
      && var row := service.voices.db.tables.voices[newId];
         && row.userId == old(CurrentUser(auth, authorization, now)).value.userId
         && row.filename == file.filename.value
         && row.name == name && row.description == description && row.createdAt == now
         && service.files.files == old(service.files.files)[row.filePath := file.content]
         && r.value == VoiceUploadResponse(newId, row.filename, row.duration, row.sampleRate, DefaultUploadMessage)
  {
    var checked := ValidateUploadedFile(file);
    if checked.Failure? {
      return Failure(checked.error);
    }
    var user := GetCurrentUser(auth, authorization, now);
    if user.Failure? {
      return Failure(user.error);
    }
    var record := service.RegisterVoice(user.value.userId, file.content, file.filename.value, name, description,
                                        newId, now, fault);
    if record.Failure? {
      return Failure(record.error);
    }
    r := Success(VoiceUploadResponse(record.value.voiceId, record.value.filename, record.value.duration,
                                     record.value.sampleRate, DefaultUploadMessage));
  }

  /**
   * `POST /voices` as written: once the guards pass, the handler calls
   * `register_voice` with a `user_id` argument it does not take, so every
   * upload that gets that far fails with a `TypeError` (a 500) and nothing
   * is saved or stored.
   */
  method UploadVoiceSampleAsWritten(auth: AuthService, file: Upload, authorization: Option<string>, now: int)
    returns (r: Result<VoiceUploadResponse, Exc>)
    ensures r.Failure?
    ensures ValidateUploadedFile(file).Failure? ==> r == Failure(ValidateUploadedFile(file).error)
    ensures ValidateUploadedFile(file).Success? && CurrentUser(auth, authorization, now).Failure? ==>
      r == Failure(CurrentUser(auth, authorization, now).error)
    ensures ValidateUploadedFile(file).Success? && CurrentUser(auth, authorization, now).Success? ==>
      r == Failure(Other(UnexpectedUserId))
  {
    var checked := ValidateUploadedFile(file);
    if checked.Failure? {
      return Failure(checked.error);
    }
    var user := GetCurrentUser(auth, authorization, now);
    if user.Failure? {
      return Failure(user.error);
    }
    r := Failure(Other(UnexpectedUserId));
  }

  /**
   * `POST /voices/{voice_id}/synthesize`: the audio the service produces,
   * served with the media type and download name of the requested format;
   * the service's errors pass through.
   */
  method SynthesizeClonedVoice(service: VoiceService, voiceId: string, request: SynthesizeRequest)
    returns (r: Result<AudioResponse, Exc>)
    ensures voiceId !in service.voices.db.tables.voices ==> r == Failure(VoiceNotFound(voiceId))
    ensures voiceId in service.voices.db.tables.voices && IsBlank(request.text) ==> r == Failure(Synthesis(EmptyText))
    ensures r.Success? ==>
      && voiceId in service.voices.db.tables.voices && !IsBlank(request.text)
      && var a := service.analyse(service.voices.db.tables.voices[voiceId].filePath);
         && a.Success?
         && service.synthesise(a.value.embedding, Strip(request.text), request.sampleRate, request.format)
              == Success(r.value.body)
    ensures voiceId in service.voices.db.tables.voices && !IsBlank(request.text) ==>
      var a := service.analyse(service.voices.db.tables.voices[voiceId].filePath);
      && (a.Failure? ==> r == Failure(SynthesisFailure(a.error)))
      && (a.Success? ==>
            var audio := service.synthesise(a.value.embedding, Strip(request.text), request.sampleRate, request.format);
            && (audio.Success? ==>
                  r == Success(AudioResponse(audio.value, MediaType(request.format), Disposition(request.format))))
            && (audio.Failure? ==> r == Failure(SynthesisFailure(audio.error))))
    ensures r.Success? ==> r.value.mediaType == MediaType(request.format)
    ensures r.Success? ==> r.value.contentDisposition == Disposition(request.format)
  {
    var audio := service.Synthesize(voiceId, request.text, request.format, request.sampleRate);
    if audio.Failure? {
      return Failure(audio.error);
    }
    r := Success(AudioResponse(audio.value, MediaType(request.format), Disposition(request.format)));
  }

  /**
   * `GET /voices/{voice_id}`: the stored voice's metadata, or a 404 for an
   * unknown id.
   */
  method GetVoiceMetadata(service: VoiceService, voiceId: string) returns (r: Result<VoiceMetadataResponse, Exc>)
    ensures r.Success? <==> voiceId in service.voices.db.tables.voices
    ensures r.Failure? ==> r == Failure(VoiceNotFound(voiceId))
    ensures r.Success? ==>
      var row := service.voices.db.tables.voices[voiceId];
      r.value == VoiceMetadataResponse(row.voiceId, row.filename, row.createdAt, row.duration, row.sampleRate,
                                       row.name, row.description)
  {
    var record := service.GetVoice(voiceId);
    if record.Failure? {
      return Failure(record.error);
    }
    var v := record.value;
    r := Success(VoiceMetadataResponse(v.voiceId, v.filename, v.createdAt, v.duration, v.sampleRate,
                                       v.name, v.description));
  }
}
