/**
 * The two tables of the relational schema (`users`, `sample_voices`) and the
 * constraints the database enforces on every write: primary keys, the unique
 * and indexed e-mail column, NOT NULL columns (as non-Option fields), column
 * widths, the 32-bit integer column and the cascading foreign key from a
 * voice to its owner.
 *
 * A write is a pure function from the old tables to the new ones or to the
 * database error the write would raise; the storage classes apply it.
 */
module Schema {
  import opened Wrappers

  /** A `Float` column value, carried through unchanged and never computed with. */
  datatype Duration = Seconds(value: real)

  /** A row of `users`. The `updated_at` column is not modelled. */
  datatype UserRow = UserRow(
    userId: string,
    email: string,
    name: Option<string>,
    picture: Option<string>,
    provider: string,
    createdAt: int)

  /** A row of `sample_voices`. The `updated_at` column is not modelled. */
  datatype VoiceRow = VoiceRow(
    voiceId: string,
    userId: string,
    filename: string,
    filePath: string,
    embeddingPath: Option<string>,
    duration: Option<Duration>,
    sampleRate: Option<int>,
    name: Option<string>,
    description: Option<string>,
    createdAt: int)

  /**
   * The database: `users` keyed by `user_id`, the unique index on `email`
   * (e-mail to `user_id`) and `sample_voices` keyed by `voice_id`.
   */
  datatype Tables = Tables(
    users: map<string, UserRow>,
    emailIndex: map<string, string>,
    voices: map<string, VoiceRow>)

  const NoTables := Tables(map[], map[], map[])

  /** The column default of `users.provider`. */
  const DefaultProvider := "google"

  // Column widths: String(255) and String(50).
  const EmailWidth := 255
  const UserNameWidth := 255
  const ProviderWidth := 50
  const FilenameWidth := 255
  const VoiceNameWidth := 255

  // The range of an `Integer` column.
  const Int32Min := -0x8000_0000
  const Int32Max := 0x7fff_ffff

  /** The errors a write can raise; each one rolls the transaction back. */
  datatype DbError =
    | ValueTooLong(column: string)
    | OutOfRange(column: string)
    | DuplicateKey(table: string)
    | DuplicateEmail(email: string)
    | MissingUser(userId: string)
    | Unavailable(message: string)

  /** The text of a database error, standing for the driver's message. */
  function DbErrorText(e: DbError): string
  {
    match e
    case ValueTooLong(c) => "value too long for column " + c
    case OutOfRange(c) => "integer out of range for column " + c
    case DuplicateKey(t) => "duplicate primary key in " + t
    case DuplicateEmail(m) => "duplicate email " + m
    case MissingUser(u) => "user " + u + " is not present in users"
    case Unavailable(m) => m
  }

  predicate FitsWidth(s: Option<string>, width: nat)
  {
    s.None? || |s.value| <= width
  }

  predicate UserRowFits(r: UserRow)
  {
    |r.email| <= EmailWidth && FitsWidth(r.name, UserNameWidth) && |r.provider| <= ProviderWidth
  }

  predicate VoiceRowFits(r: VoiceRow)
  {
    && |r.filename| <= FilenameWidth
    && FitsWidth(r.name, VoiceNameWidth)
    && (r.sampleRate.Some? ==> Int32Min <= r.sampleRate.value <= Int32Max)
  }

  /**
   * The schema's invariants: every row sits under its own primary key and fits
   * its columns; the e-mail index is exactly the inverse of the e-mail column
   * (so e-mails are unique); every voice's owner exists.
   */
  ghost predicate Valid(t: Tables)
  {
    && (forall id :: id in t.users ==>
          && t.users[id].userId == id
          && UserRowFits(t.users[id])
          && t.users[id].email in t.emailIndex
          && t.emailIndex[t.users[id].email] == id)
    && (forall e :: e in t.emailIndex ==>
          t.emailIndex[e] in t.users && t.users[t.emailIndex[e]].email == e)
    && (forall v :: v in t.voices ==>
          && t.voices[v].voiceId == v
          && VoiceRowFits(t.voices[v])
          && t.voices[v].userId in t.users)
  }

  /** No two users share an e-mail address. */
  lemma EmailsUnique(t: Tables, a: string, b: string)
    requires Valid(t)
    requires a in t.users && b in t.users && t.users[a].email == t.users[b].email
    ensures a == b
  {
  }

  /** The error inserting `row` into `users` raises, if any. */
  function UserInsertError(t: Tables, row: UserRow): Option<DbError>
  {
    if |row.email| > EmailWidth then Some(ValueTooLong("email"))
    else if !FitsWidth(row.name, UserNameWidth) then Some(ValueTooLong("name"))
    else if |row.provider| > ProviderWidth then Some(ValueTooLong("provider"))
    else if row.userId in t.users then Some(DuplicateKey("users"))
    else if row.email in t.emailIndex then Some(DuplicateEmail(row.email))
    else None
  }

  /** `INSERT INTO users`. */
  function InsertUser(t: Tables, row: UserRow): (r: Result<Tables, DbError>)
    ensures r.Success? <==> UserInsertError(t, row).None?
    ensures r.Failure? ==> r.error == UserInsertError(t, row).value
    ensures r.Success? ==>
      && r.value.users == t.users[row.userId := row]
      && r.value.voices == t.voices
      && row.userId !in t.users
    ensures Valid(t) && r.Success? ==> Valid(r.value)
  {
    match UserInsertError(t, row)
    case Some(e) => Failure(e)
    case None => Success(Tables(t.users[row.userId := row], t.emailIndex[row.email := row.userId], t.voices))
  }

  /** A second user with an e-mail already in the table is refused. */
  lemma DuplicateEmailRefused(t: Tables, row: UserRow, other: string)
    requires Valid(t) && UserRowFits(row)
    requires other in t.users && t.users[other].email == row.email
    ensures InsertUser(t, row).Failure?
    ensures row.userId !in t.users ==> InsertUser(t, row) == Failure(DuplicateEmail(row.email))
  {
  }

  /** `UPDATE users` of the row with `row.userId`, which keeps its e-mail. */
  function ReplaceUser(t: Tables, row: UserRow): (r: Result<Tables, DbError>)
    requires row.userId in t.users && t.users[row.userId].email == row.email
    ensures r.Success? <==> UserRowFits(row)
    ensures r.Success? ==> r.value.users == t.users[row.userId := row] && r.value.voices == t.voices
    ensures Valid(t) && r.Success? ==> Valid(r.value)
  {
    if !FitsWidth(row.name, UserNameWidth) then Failure(ValueTooLong("name"))
    else if !UserRowFits(row) then Failure(ValueTooLong("users"))
    else Success(Tables(t.users[row.userId := row], t.emailIndex, t.voices))
  }

  /** The error inserting `row` into `sample_voices` raises, if any. */
  function VoiceInsertError(t: Tables, row: VoiceRow): Option<DbError>
  {
    if |row.filename| > FilenameWidth then Some(ValueTooLong("filename"))
    else if !FitsWidth(row.name, VoiceNameWidth) then Some(ValueTooLong("name"))
    else if row.sampleRate.Some? && !(Int32Min <= row.sampleRate.value <= Int32Max) then Some(OutOfRange("sample_rate"))
    else if row.voiceId in t.voices then Some(DuplicateKey("sample_voices"))
    else if row.userId !in t.users then Some(MissingUser(row.userId))
    else None
  }

  /** `INSERT INTO sample_voices`. */
  function InsertVoice(t: Tables, row: VoiceRow): (r: Result<Tables, DbError>)
    ensures r.Success? <==> VoiceInsertError(t, row).None?
    ensures r.Failure? ==> r.error == VoiceInsertError(t, row).value
    ensures r.Success? ==>
      && r.value.voices == t.voices[row.voiceId := row]
      && r.value.users == t.users && r.value.emailIndex == t.emailIndex
      && row.voiceId !in t.voices && row.userId in t.users
    ensures Valid(t) && r.Success? ==> Valid(r.value)
  {
    match VoiceInsertError(t, row)
    case Some(e) => Failure(e)
    case None => Success(t.(voices := t.voices[row.voiceId := row]))
  }

  /** `DELETE FROM sample_voices WHERE voice_id = id`. */
  function DeleteVoice(t: Tables, id: string): (r: Tables)
    ensures id !in r.voices
    ensures forall v :: v in t.voices && v != id ==> v in r.voices && r.voices[v] == t.voices[v]
    ensures r.voices.Keys <= t.voices.Keys && r.users == t.users
    ensures Valid(t) ==> Valid(r)
  {
    t.(voices := t.voices - {id})
  }

  /**
   * `DELETE FROM users WHERE user_id = id`: the foreign key is declared
   * ON DELETE CASCADE, so the user's voices go with it. No storage operation
   * issues this statement; it is the schema's meaning of removing a user.
   */
  function DeleteUser(t: Tables, id: string): (r: Tables)
    requires Valid(t)
    ensures id !in r.users
    ensures forall v :: v in r.voices ==> r.voices[v].userId != id
    ensures forall v :: v in t.voices && t.voices[v].userId != id ==> v in r.voices && r.voices[v] == t.voices[v]
    ensures forall u :: u in t.users && u != id ==> u in r.users && r.users[u] == t.users[u]
    ensures r.users.Keys <= t.users.Keys && r.voices.Keys <= t.voices.Keys
    ensures Valid(r)
  {
    var index := if id in t.users then t.emailIndex - {t.users[id].email} else t.emailIndex;
    var voices := map v | v in t.voices && t.voices[v].userId != id :: t.voices[v];
    Tables(t.users - {id}, index, voices)
  }
}
