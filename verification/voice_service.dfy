/**
 * The voice service: registering an uploaded voice sample (save the file,
 * analyse it, store the record, and remove the file again if anything after
 * the save fails), looking a voice up, and synthesising speech with it.
 *
 * The inference engine is code outside this model: `analyse` stands for
 * `compute_speaker_embedding` and `synthesise` for `synthesize_speech`, each
 * either returning its result or raising an exception.
 */
module VoiceService {
  import opened Wrappers
  import opened Text
  import opened Schema
  import opened Storage
  import opened Errors
  import opened FileUtils

  /** A speaker embedding; the service passes it along without looking inside. */
  datatype Embedding = Embedding(values: seq<real>)

  /** What `compute_speaker_embedding` returns for an audio file. */
  datatype Analysis = Analysis(embedding: Option<Embedding>, duration: Option<Duration>, sampleRate: Option<int>)

  /** `compute_speaker_embedding(path)`. */
  type Analyser = string -> Result<Analysis, Exc>

  /** `synthesize_speech(embedding, text, sample_rate, format)`. */
  type Synthesiser = (Option<Embedding>, string, int, string) -> Result<Bytes, Exc>


  const EmptyText := "Text cannot be empty"

  /** The text of the `TypeError` raised by calling `VoiceStorage.create` without its owner. */
  const MissingUserId := "VoiceStorage.create() missing 1 required positional argument: 'user_id'"

  /**
   * The embedding path recorded for a saved file, `EMBEDDING_DIR /
   * "<stem>.npy"`: the file "<stem>.npy" directly inside the embedding
   * directory.
   */
  function EmbeddingPathFor(embeddingDir: Dir, savedPath: string): (p: string)
    ensures p == Join(embeddingDir, Stem(BaseName(savedPath)) + ".npy")
  {
    var name := Stem(BaseName(savedPath)) + ".npy";
    EmbeddingNamePlain(savedPath);
    PlainJoin(embeddingDir, name);
    PathJoin(embeddingDir, name)
  }

  /** The name of an embedding file is one plain component. */
  lemma EmbeddingNamePlain(savedPath: string)
    ensures Plain(Stem(BaseName(savedPath)) + ".npy")
  {
    var name := Stem(BaseName(savedPath)) + ".npy";
    StemSuffix(BaseName(savedPath));
    assert forall c :: c in name ==> c in BaseName(savedPath) || c in ".npy";
    assert |name| >= 4;
  }

  /**
   * The embedding path depends only on the saved file's stem: samples saved
   * as "x.wav" and "x.mp3" are given the same embedding path.
   */
  lemma EmbeddingPathIgnoresSuffix(uploadDir: Dir, embeddingDir: Dir, stem: string, a: string, b: string)
    requires '/' !in stem && '.' !in stem && stem != []
    requires |a| >= 2 && |b| >= 2 && a[0] == '.' && b[0] == '.' && '.' !in a[1..] && '.' !in b[1..] && '/' !in a && '/' !in b
    ensures EmbeddingPathFor(embeddingDir, Join(uploadDir, stem + a)) == EmbeddingPathFor(embeddingDir, Join(uploadDir, stem + b))
  {
    StemOfDotted(uploadDir, stem, a);
    StemOfDotted(uploadDir, stem, b);
  }

  /** The stem of `stem + ext` saved under the upload directory is `stem`. */
  lemma StemOfDotted(dir: string, stem: string, ext: string)
    requires '/' !in stem && '.' !in stem && stem != []
    requires |ext| >= 2 && ext[0] == '.' && '.' !in ext[1..] && '/' !in ext
    ensures Stem(BaseName(Join(dir, stem + ext))) == stem
  {
    var name := stem + ext;
    assert '/' !in name by {
      forall i | 0 <= i < |name|
        ensures name[i] != '/'
      {
        if i < |stem| {
          assert name[i] == stem[i];
        } else {
          assert name[i] == ext[i - |stem|];
        }
      }
    }
    BaseNameOfJoin(dir, name);
    assert LastIndexOf(name, '.') == |stem| by {
      forall i | |stem| < i < |name|
        ensures name[i] != '.'
      {
        assert name[i] == ext[1..][i - |stem| - 1];
      }
      assert name[|stem|] == '.';
      LastIndexOfIs(name, '.', |stem|);
    }
    assert name[..|stem|] == stem;
  }

  /**
   * The row `register_voice` stores for a saved sample: its analysis, and an
   * embedding path exactly when the analysis produced an embedding.
   */
  function Registered(embeddingDir: Dir, userId: string, filename: string, path: string, a: Analysis, name: Option<string>,
                      description: Option<string>, newId: string, now: int): (row: VoiceRow)
    ensures row.embeddingPath.Some? <==> a.embedding.Some?
    ensures row.embeddingPath.Some? ==> row.embeddingPath.value == Join(embeddingDir, Stem(BaseName(path)) + ".npy")
    ensures row.voiceId == newId && row.userId == userId && row.filename == filename && row.filePath == path
    ensures row.duration == a.duration && row.sampleRate == a.sampleRate
    ensures row.name == name && row.description == description && row.createdAt == now
  {
    VoiceRow(newId, userId, filename, path, if a.embedding.Some? then Some(EmbeddingPathFor(embeddingDir, path)) else None,
             a.duration, a.sampleRate, name, description, now)
  }

  /**
   * How the synthesis `try` block treats an exception: a not-found error
   * passes through unchanged, anything else becomes a synthesis error
   * carrying its text.
   */
  function SynthesisFailure(e: Exc): (r: Exc)
    ensures e.VoiceNotFound? ==> r == e
    ensures !e.VoiceNotFound? ==> r == Synthesis(Str(e))
  {
    if e.VoiceNotFound? then e else Synthesis(Str(e))
  }

  /**
   * The outcome of the `try` block of `register_voice` for a sample saved at
   * `path`, given what the analysis of the sample gave: the analysed row is
   * inserted; a failed analysis or insert becomes an embedding error carrying
   * the cause's text and leaves the tables as they were.
   */
  function Registration(t: Tables, analysis: Result<Analysis, Exc>, embeddingDir: Dir, userId: string,
                        filename: string, path: string, name: Option<string>, description: Option<string>,
                        newId: string, now: int, fault: Option<string>): (c: Committed<VoiceRecord, Exc>)
    requires StoreValid(t)
    ensures StoreValid(c.tables)
    ensures c.result.Failure? ==> c.tables == t && c.result.error.EmbeddingComputation?
    ensures analysis.Failure? ==> c.result == Failure(EmbeddingComputation(Str(analysis.error)))
    ensures analysis.Success? ==>
      var v := CreateVoice(t, Registered(embeddingDir, userId, filename, path, analysis.value, name, description,
                                         newId, now), fault);
      && (c.result.Success? <==> v.result.Success?)
      && (c.result.Success? ==> c == Committed(Success(v.result.value), v.tables))
      && (c.result.Failure? ==> c.result.error == EmbeddingComputation(Str(Database(v.result.error))))
  {
    if analysis.Failure? then Committed(Failure(EmbeddingComputation(Str(analysis.error))), t)
    else
      var v := CreateVoice(t, Registered(embeddingDir, userId, filename, path, analysis.value, name, description,
                                         newId, now), fault);
      if v.result.Failure? then Committed(Failure(EmbeddingComputation(Str(Database(v.result.error)))), t)
      else Committed(Success(v.result.value), v.tables)
  }

  /**
   * A successful registration adds exactly one voice, under the new id and
   * owned by the caller, keeps every other voice and every user, and answers
   * with the new voice's record.
   */
  lemma RegistrationAddsOneVoice(t: Tables, analysis: Result<Analysis, Exc>, embeddingDir: Dir, userId: string,
                                 filename: string, path: string, name: Option<string>, description: Option<string>,
                                 newId: string, now: int, fault: Option<string>)
    requires StoreValid(t)
    ensures var c := Registration(t, analysis, embeddingDir, userId, filename, path, name, description, newId, now, fault);
      c.result.Success? ==>
        && analysis.Success? && newId !in t.voices && userId in t.users
        && c.tables.users == t.users
        && c.tables.voices == t.voices[newId := Registered(embeddingDir, userId, filename, path, analysis.value,
                                                           name, description, newId, now)]
        && c.result.value.voiceId == newId && c.result.value.filePath == path
  {
  }

  /** A file saved at a free path and then removed leaves the files as they were. */
  lemma SavedThenRemoved(before: map<string, Bytes>, path: string, content: Bytes)
    requires path !in before
    ensures before[path := content] - {path} == before
  {
  }

  /** `VoiceService`, with the stores, the file system and the engine it uses. */
  class VoiceService {
    const files: FileSystem
    const voices: VoiceStorage
    const analyse: Analyser
    const synthesise: Synthesiser
    /** The `UPLOAD_DIR` and `EMBEDDING_DIR` settings ("uploads" and "embeddings" unless configured). */
    const uploadDir: Dir
    const embeddingDir: Dir

    constructor (files: FileSystem, voices: VoiceStorage, analyse: Analyser, synthesise: Synthesiser,
                 uploadDir: Dir, embeddingDir: Dir)
      ensures this.files == files && this.voices == voices
      ensures this.analyse == analyse && this.synthesise == synthesise
      ensures this.uploadDir == uploadDir && this.embeddingDir == embeddingDir
    {
      this.files := files;
      this.voices := voices;
      this.analyse := analyse;
      this.synthesise := synthesise;
      this.uploadDir := uploadDir;
      this.embeddingDir := embeddingDir;
    }

    /**
     * `register_voice`, with the owner passed on to the store: the sample is
     * saved under a fresh name, analysed, and recorded with its analysis;
     * if the analysis or the insert fails, the saved file is removed again and
     * the failure is raised as an embedding error carrying its text.
     */
    method RegisterVoice(userId: string, content: Bytes, filename: string, name: Option<string>,
                         description: Option<string>, newId: string, now: int, fault: Option<string>)
      returns (r: Result<VoiceRecord, Exc>)
      requires voices.db.Valid()
      modifies files, voices.db
      ensures voices.db.Valid()
      ensures files.dirs == old(files.dirs) + {uploadDir}
      ensures var path := SavePath(old(files.files).Keys, old(files.dirs), uploadDir, filename);
        && Committed(r, voices.db.tables)
             == Registration(old(voices.db.tables), analyse(path), embeddingDir, userId, filename, path, name,
                             description, newId, now, fault)
        && (r.Success? ==> files.files == old(files.files)[path := content])
        && (r.Failure? ==> files.files == old(files.files))
    {
      ghost var before := files.files;
      var path := files.SaveVoiceFile(content, filename, uploadDir);
      SavedThenRemoved(before, path, content);
      r := AnalyseSaved(userId, filename, path, name, description, newId, now, fault);
    }

    /**
     * The `try` block of `register_voice`, once the sample is saved at
     * `path`: analyse it and record it; if the analysis or the insert fails,
     * remove the saved file and raise an embedding error carrying the cause's
     * text.
     */
    method AnalyseSaved(userId: string, filename: string, path: string, name: Option<string>,
                        description: Option<string>, newId: string, now: int, fault: Option<string>)
      returns (r: Result<VoiceRecord, Exc>)
      requires voices.db.Valid()
      modifies files, voices.db
      ensures voices.db.Valid()
      ensures files.dirs == old(files.dirs)
      ensures Committed(r, voices.db.tables)
        == Registration(old(voices.db.tables), analyse(path), embeddingDir, userId, filename, path, name,
                        description, newId, now, fault)
      ensures r.Success? ==> files.files == old(files.files)
      ensures r.Failure? ==> files.files == old(files.files) - {path}
    {
      var analysis := analyse(path);
      if analysis.Failure? {
        Discard(path);
        return Failure(EmbeddingComputation(Str(analysis.error)));
      }
      r := RecordAnalysed(userId, filename, path, analysis.value, name, description, newId, now, fault);
    }

    /**
     * The rest of the `try` block of `register_voice`: store the record of
     * the analysed sample, or, if the insert fails, remove the saved file and
     * raise an embedding error carrying the database error's text.
     */
    method RecordAnalysed(userId: string, filename: string, path: string, a: Analysis, name: Option<string>,
                          description: Option<string>, newId: string, now: int, fault: Option<string>)
      returns (r: Result<VoiceRecord, Exc>)
      requires voices.db.Valid()
      modifies files, voices.db
      ensures voices.db.Valid()
      ensures files.dirs == old(files.dirs)
      ensures Committed(r, voices.db.tables)
        == Registration(old(voices.db.tables), Success(a), embeddingDir, userId, filename, path, name,
                        description, newId, now, fault)
      ensures r.Success? ==> files.files == old(files.files)
      ensures r.Failure? ==> files.files == old(files.files) - {path}
    {
      var embeddingPath := None;
      if a.embedding.Some? {
        embeddingPath := Some(EmbeddingPathFor(embeddingDir, path));
      }
      var record := voices.Create(userId, filename, path, embeddingPath, a.duration, a.sampleRate,
                                  name, description, newId, now, fault);
      if record.Failure? {
        Discard(path);
        return Failure(EmbeddingComputation(Str(Database(record.error))));
      }
      r := Success(record.value);
    }

    /**
     * `register_voice` as written: it calls the store without the owner's id,
     * so once the analysis succeeds the call itself raises a `TypeError`,
     * which the handler turns into an embedding error. No voice can ever be
     * registered, and the saved file is always removed again.
     */
    method RegisterVoiceAsWritten(content: Bytes, filename: string, name: Option<string>, description: Option<string>)
      returns (r: Result<VoiceRecord, Exc>)
      modifies files
      ensures files.files == old(files.files) && files.dirs == old(files.dirs) + {uploadDir}
      ensures r.Failure? && r.error.EmbeddingComputation?
      ensures var path := SavePath(old(files.files).Keys, old(files.dirs), uploadDir, filename);
        && (analyse(path).Failure? ==> r.error == EmbeddingComputation(Str(analyse(path).error)))
        && (analyse(path).Success? ==> r.error == EmbeddingComputation(MissingUserId))
    {
      ghost var before := files.files;
      var path := files.SaveVoiceFile(content, filename, uploadDir);
      SavedThenRemoved(before, path, content);
      var analysis := analyse(path);
      if analysis.Failure? {
        Discard(path);
        return Failure(EmbeddingComputation(Str(analysis.error)));
      }
      Discard(path);
      r := Failure(EmbeddingComputation(Str(Other(MissingUserId))));
    }

    /** The clean-up of the handler: unlink the saved file if it exists. */
    method Discard(path: string)
      modifies files
      ensures files.files == old(files.files) - {path} && files.dirs == old(files.dirs)
    {
      var present := files.Exists(path);
      if present {
        files.Unlink(path);
      }
    }

    /** `get_voice`: the stored voice, or a not-found error naming the id. */
    method GetVoice(voiceId: string) returns (r: Result<VoiceRecord, Exc>)
      ensures r.Success? <==> voiceId in voices.db.tables.voices
      ensures r.Success? ==> r.value == VoiceFromModel(voices.db.tables.voices[voiceId])
      ensures r.Failure? ==> r.error == VoiceNotFound(voiceId)
    {
      var record := voices.Get(voiceId);
      if record.None? {
        return Failure(VoiceNotFound(voiceId));
      }
      r := Success(record.value);
    }

    /**
     * `synthesize`: an unknown voice is reported before the text is looked
     * at; empty or blank text is refused before the engine runs; otherwise
     * the engine gets the voice's embedding, the stripped text and the
     * caller's sample rate and format, and its failures are wrapped.
     */
    method Synthesize(voiceId: string, text: string, format: string, sampleRate: int) returns (r: Result<Bytes, Exc>)
      ensures voiceId !in voices.db.tables.voices ==> r == Failure(VoiceNotFound(voiceId))
      ensures voiceId in voices.db.tables.voices && IsBlank(text) ==> r == Failure(Synthesis(EmptyText))
      ensures voiceId in voices.db.tables.voices && !IsBlank(text) ==>
        var a := analyse(voices.db.tables.voices[voiceId].filePath);
        && (a.Failure? ==> r == Failure(SynthesisFailure(a.error)))
        && (a.Success? ==>
              var audio := synthesise(a.value.embedding, Strip(text), sampleRate, format);
              && (audio.Success? ==> r == Success(audio.value))
              && (audio.Failure? ==> r == Failure(SynthesisFailure(audio.error))))
    {
      var record := voices.Get(voiceId);
      if record.None? {
        return Failure(VoiceNotFound(voiceId));
      }
      if text == "" || Strip(text) == "" {
        return Failure(Synthesis(EmptyText));
      }
      var analysis := analyse(record.value.filePath);
      if analysis.Failure? {
        return Failure(SynthesisFailure(analysis.error));
      }
      var audio := synthesise(analysis.value.embedding, Strip(text), sampleRate, format);
      if audio.Failure? {
        return Failure(SynthesisFailure(audio.error));
      }
      r := Success(audio.value);
    }
  }
}
