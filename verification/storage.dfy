/**
 * The storage layer: `UserStorage` and `VoiceStorage` read and write the
 * tables of the shared database, and hand back plain records converted from
 * the rows (`from_model`).
 *
 * Every write runs in one transaction: it either commits the whole change or,
 * when the database raises (a constraint of the schema, or `fault`, the error
 * of an unavailable connection), rolls back and re-raises, leaving the tables
 * as they were. Generated primary keys are the parameter `newId`; the clock
 * reading that fills `created_at` is the parameter `now`.
 */
module Storage {
  import opened Wrappers
  import opened Text
  import opened Schema

  /** `VoiceRecord`: a voice row without its owner. */
  datatype VoiceRecord = VoiceRecord(
    voiceId: string,
    filename: string,
    filePath: string,
    embeddingPath: Option<string>,
    duration: Option<Duration>,
    sampleRate: Option<int>,
    name: Option<string>,
    description: Option<string>,
    createdAt: int)

  /** `UserRecord`. */
  datatype UserRecord = UserRecord(
    userId: string,
    email: string,
    name: Option<string>,
    picture: Option<string>,
    provider: string,
    createdAt: int)

  /** `VoiceRecord.from_model`. */
  function VoiceFromModel(row: VoiceRow): (r: VoiceRecord)
    ensures r.voiceId == row.voiceId && r.filename == row.filename && r.filePath == row.filePath
    ensures r.embeddingPath == row.embeddingPath && r.duration == row.duration && r.sampleRate == row.sampleRate
    ensures r.name == row.name && r.description == row.description && r.createdAt == row.createdAt
  {
    VoiceRecord(row.voiceId, row.filename, row.filePath, row.embeddingPath, row.duration,
                row.sampleRate, row.name, row.description, row.createdAt)
  }

  /** `UserRecord.from_model`. */
  function UserFromModel(row: UserRow): (r: UserRecord)
    ensures r.userId == row.userId && r.email == row.email && r.name == row.name
    ensures r.picture == row.picture && r.provider == row.provider && r.createdAt == row.createdAt
  {
    UserRecord(row.userId, row.email, row.name, row.picture, row.provider, row.createdAt)
  }

  /** The record of a voice does not depend on who owns it. */
  lemma VoiceRecordForgetsOwner(row: VoiceRow, owner: string)
    ensures VoiceFromModel(row.(userId := owner)) == VoiceFromModel(row)
  {
  }

  /** Two voice rows with the same owner convert to the same record only if they are the same row. */
  lemma VoiceFromModelKeepsFields(a: VoiceRow, b: VoiceRow)
    requires a.userId == b.userId && VoiceFromModel(a) == VoiceFromModel(b)
    ensures a == b
  {
  }

  /** The user record holds every column of its row. */
  lemma UserFromModelKeepsFields(a: UserRow, b: UserRow)
    requires UserFromModel(a) == UserFromModel(b)
    ensures a == b
  {
  }

  predicate IsLowerCase(s: string)
  {
    Lower(s) == s
  }

  /** The ids of the voices the records stand for. */
  function IdsOf(records: seq<VoiceRecord>): set<string>
  {
    if records == [] then {}
    else IdsOf(records[..|records| - 1]) + {records[|records| - 1].voiceId}
  }

  /** Every listed record's id is among `IdsOf`. */
  lemma {:induction false} InIdsOf(records: seq<VoiceRecord>, k: nat)
    requires k < |records|
    ensures records[k].voiceId in IdsOf(records)
    decreases |records|
  {
    if k < |records| - 1 {
      InIdsOf(records[..|records| - 1], k);
    }
  }

  /** No voice is listed twice. */
  predicate Distinct(records: seq<VoiceRecord>)
  {
    forall i, j :: 0 <= i < j < |records| ==> records[i].voiceId != records[j].voiceId
  }

  /** An id that no record carries is not among `IdsOf`. */
  lemma {:induction false} NotInIdsOf(records: seq<VoiceRecord>, id: string)
    requires forall k :: 0 <= k < |records| ==> records[k].voiceId != id
    ensures id !in IdsOf(records)
    decreases |records|
  {
    if records != [] {
      NotInIdsOf(records[..|records| - 1], id);
    }
  }

  /** A list without repetitions has as many records as it names voices. */
  lemma {:induction false} DistinctLength(records: seq<VoiceRecord>)
    requires Distinct(records)
    ensures |records| == |IdsOf(records)|
    decreases |records|
  {
    if records != [] {
      var init := records[..|records| - 1];
      DistinctLength(init);
      NotInIdsOf(init, records[|records| - 1].voiceId);
    }
  }

  /** `record` is the record of the voice with its id. */
  predicate IsRecordOf(record: VoiceRecord, voices: map<string, VoiceRow>)
  {
    record.voiceId in voices && record == VoiceFromModel(voices[record.voiceId])
  }

  /**
   * `records` lists, each exactly once and in some order, the records of the
   * voices whose ids are `ids`.
   */
  ghost predicate Lists(records: seq<VoiceRecord>, voices: map<string, VoiceRow>, ids: set<string>)
  {
    && IdsOf(records) == ids
    && Distinct(records)
    && (forall k :: 0 <= k < |records| ==> IsRecordOf(records[k], voices))
  }

  /** Listing one more voice, not listed yet, keeps the list exact. */
  lemma ListsAppend(records: seq<VoiceRecord>, voices: map<string, VoiceRow>, ids: set<string>, v: string)
    requires Lists(records, voices, ids)
    requires v in voices && voices[v].voiceId == v && v !in ids
    ensures Lists(records + [VoiceFromModel(voices[v])], voices, ids + {v})
  {
    var record := VoiceFromModel(voices[v]);
    var longer := records + [record];
    assert longer[..|records|] == records;
    forall k | 0 <= k < |records|
      ensures records[k].voiceId != v
    {
      InIdsOf(records, k);
    }
    forall i, j | 0 <= i < j < |longer|
      ensures longer[i].voiceId != longer[j].voiceId
    {
      assert longer[i] == records[i];
    }
    assert IsRecordOf(record, voices);
  }

  /** A list names exactly as many records as voices. */
  lemma ListsLength(records: seq<VoiceRecord>, voices: map<string, VoiceRow>, ids: set<string>)
    requires Lists(records, voices, ids)
    ensures |records| == |ids|
  {
    DistinctLength(records);
  }

  /** The voices `user_id` owns. */
  function OwnedBy(voices: map<string, VoiceRow>, userId: string): set<string>
  {
    set v | v in voices && voices[v].userId == userId
  }

  /** The user whose (lower-cased) e-mail is `email`, found through the unique index. */
  function UserByEmail(t: Tables, email: string): (r: Option<UserRow>)
    requires Schema.Valid(t)
    ensures r.Some? <==> exists id :: id in t.users && t.users[id].email == Lower(email)
    ensures r.Some? ==> r.value.email == Lower(email) && r.value.userId in t.users && t.users[r.value.userId] == r.value
  {
    var key := Lower(email);
    if key in t.emailIndex then Some(t.users[t.emailIndex[key]]) else None
  }

  /** Looking a user up by e-mail does not depend on the case of the query. */
  lemma UserByEmailIgnoresCase(t: Tables, a: string, b: string)
    requires Schema.Valid(t) && Lower(a) == Lower(b)
    ensures UserByEmail(t, a) == UserByEmail(t, b)
  {
  }

  /** A user stored with a lower-cased e-mail is found by any spelling of that address. */
  lemma StoredUserFoundByEmail(t: Tables, row: UserRow, query: string)
    requires Schema.Valid(t) && InsertUser(t, row).Success?
    requires Lower(query) == row.email
    ensures UserByEmail(InsertUser(t, row).value, query) == Some(row)
  {
    var u := InsertUser(t, row).value;
    EmailsUnique(u, row.userId, u.emailIndex[row.email]);
  }

  /** "X@Y.com" and "x@y.com" are the same address to the store. */
  lemma MixedCaseAddress()
    ensures Lower("X@Y.com") == "x@y.com"
  {
  }

  /**
   * The invariant the stores keep: the schema's own, and every stored e-mail
   * lower case, since the only writer of that column lower-cases it.
   */
  ghost predicate StoreValid(t: Tables)
  {
    && Schema.Valid(t)
    && forall id :: id in t.users ==> IsLowerCase(t.users[id].email)
  }

  /** The outcome of a write: what it returns or raises, and the tables afterwards. */
  datatype Committed<+T, +E> = Committed(result: Result<T, E>, tables: Tables)

  /** The row `UserStorage.create` inserts. */
  function NewUserRow(userId: string, email: string, name: Option<string>, picture: Option<string>,
                      provider: Option<string>, now: int): UserRow
  {
    UserRow(userId, Lower(email), name, picture, OrElse(provider, DefaultProvider), now)
  }

  /**
   * `UserStorage.create`: the new user has the lower-cased e-mail and, unless
   * another is given, the provider "google"; a refused insert changes nothing.
   */
  function CreateUser(t: Tables, email: string, name: Option<string>, picture: Option<string>,
                      provider: Option<string>, newId: string, now: int, fault: Option<string>)
    : (c: Committed<UserRecord, DbError>)
    requires StoreValid(t)
    ensures StoreValid(c.tables)
    ensures var row := NewUserRow(newId, email, name, picture, provider, now);
      && (c.result.Success? <==> fault.None? && UserInsertError(t, row).None?)
      && (c.result.Failure? ==> c.tables == t)
      && (c.result.Failure? && fault.Some? ==> c.result.error == Unavailable(fault.value))
      && (c.result.Failure? && fault.None? ==> c.result.error == UserInsertError(t, row).value)
    ensures c.result.Success? ==>
      && newId !in t.users
      && c.tables.users == t.users[newId := NewUserRow(newId, email, name, picture, provider, now)]
      && c.tables.voices == t.voices
      && c.result.value == UserFromModel(c.tables.users[newId])
    ensures c.result.Success? ==>
      && c.result.value.email == Lower(email)
      && c.result.value.provider == (if provider.Some? then provider.value else "google")
  {
    var row := NewUserRow(newId, email, name, picture, provider, now);
    if fault.Some? then Committed(Failure(Unavailable(fault.value)), t)
    else
      LowerIdempotent(email);
      match InsertUser(t, row)
      case Failure(e) => Committed(Failure(e), t)
      case Success(u) => Committed(Success(UserFromModel(row)), u)
  }

  /** `row` with `name` and `picture` replaced where they are given. */
  function Patched(row: UserRow, name: Option<string>, picture: Option<string>): UserRow
  {
    row.(name := if name.Some? then name else row.name,
         picture := if picture.Some? then picture else row.picture)
  }

  /**
   * `UserStorage.update`: a PATCH of `name` and `picture`, each overwritten
   * only when given, leaving the id, the e-mail and the provider alone. An
   * unknown id changes nothing and gives `None`.
   */
  function UpdateUser(t: Tables, userId: string, name: Option<string>, picture: Option<string>, fault: Option<string>)
    : (c: Committed<Option<UserRecord>, DbError>)
    requires StoreValid(t)
    ensures StoreValid(c.tables)
    ensures userId !in t.users ==> c == Committed(Success(None), t)
    ensures c.result.Failure? ==> c.tables == t && userId in t.users
    ensures userId in t.users ==>
      (c.result.Success? <==> fault.None? && UserRowFits(Patched(t.users[userId], name, picture)))
    ensures userId in t.users && c.result.Success? ==>
      var before, after := t.users[userId], Patched(t.users[userId], name, picture);
      && c.result.value == Some(UserFromModel(after))
      && c.tables.users == t.users[userId := after]
      && c.tables.voices == t.voices
      && after.userId == userId && after.email == before.email && after.provider == before.provider
      && after.name == (if name.Some? then name else before.name)
      && after.picture == (if picture.Some? then picture else before.picture)
  {
    if userId !in t.users then Committed(Success(None), t)
    else
      var row := Patched(t.users[userId], name, picture);
      if fault.Some? then Committed(Failure(Unavailable(fault.value)), t)
      else
        match ReplaceUser(t, row)
        case Failure(e) => Committed(Failure(e), t)
        case Success(u) => Committed(Success(Some(UserFromModel(row))), u)
  }

  /**
   * `VoiceStorage.create`: the new voice row holds exactly the given columns
   * and the given owner; a refused insert changes nothing.
   */
  function CreateVoice(t: Tables, row: VoiceRow, fault: Option<string>): (c: Committed<VoiceRecord, DbError>)
    requires StoreValid(t)
    ensures StoreValid(c.tables)
    ensures c.result.Success? <==> fault.None? && VoiceInsertError(t, row).None?
    ensures c.result.Failure? ==> c.tables == t
    ensures c.result.Failure? && fault.None? ==> c.result.error == VoiceInsertError(t, row).value
    ensures c.result.Success? ==>
      && row.voiceId !in t.voices && row.userId in t.users
      && c.tables.voices == t.voices[row.voiceId := row]
      && c.tables.users == t.users
      && c.result.value == VoiceFromModel(row)
  {
    if fault.Some? then Committed(Failure(Unavailable(fault.value)), t)
    else
      match InsertVoice(t, row)
      case Failure(e) => Committed(Failure(e), t)
      case Success(u) => Committed(Success(VoiceFromModel(row)), u)
  }

  /**
   * `VoiceStorage.delete`: `true` when the voice was there and is now gone,
   * `false` when there was nothing to delete; only the commit of an actual
   * deletion can fail, and then nothing changes.
   */
  function RemoveVoice(t: Tables, voiceId: string, fault: Option<string>): (c: Committed<bool, DbError>)
    requires StoreValid(t)
    ensures StoreValid(c.tables)
    ensures c.result.Failure? <==> voiceId in t.voices && fault.Some?
    ensures c.result.Success? ==> (c.result.value <==> voiceId in t.voices)
    ensures c.result.Success? ==> voiceId !in c.tables.voices
    ensures forall v :: v in t.voices && v != voiceId ==> v in c.tables.voices && c.tables.voices[v] == t.voices[v]
    ensures c.tables.users == t.users && c.tables.voices.Keys <= t.voices.Keys
    ensures c.result.Failure? ==> c.tables == t
  {
    if voiceId !in t.voices then Committed(Success(false), t)
    else if fault.Some? then Committed(Failure(Unavailable(fault.value)), t)
    else Committed(Success(true), DeleteVoice(t, voiceId))
  }

  /** After a successful `create`, `get` of the new id gives back exactly the given columns. */
  lemma CreatedVoiceReadBack(t: Tables, row: VoiceRow, fault: Option<string>)
    requires StoreValid(t) && CreateVoice(t, row, fault).result.Success?
    ensures var u := CreateVoice(t, row, fault).tables;
      && row.voiceId in u.voices
      && VoiceFromModel(u.voices[row.voiceId]) == VoiceRecord(row.voiceId, row.filename, row.filePath,
           row.embeddingPath, row.duration, row.sampleRate, row.name, row.description, row.createdAt)
      && u.voices[row.voiceId].userId == row.userId
  {
  }

  /** The database both stores share. */
  class Database {
    var tables: Tables

    ghost predicate Valid()
      reads this
    {
      StoreValid(tables)
    }

    constructor ()
      ensures tables == NoTables && Valid()
    {
      tables := NoTables;
    }
  }

  /** `UserStorage`. */
  class UserStorage {
    const db: Database

    constructor (db: Database)
      ensures this.db == db
    {
      this.db := db;
    }

    /** `create`. */
    method Create(email: string, name: Option<string>, picture: Option<string>, provider: Option<string>,
                  newId: string, now: int, fault: Option<string>)
      returns (r: Result<UserRecord, DbError>)
      requires db.Valid()
      modifies db
      ensures db.Valid()
      ensures Committed(r, db.tables) == CreateUser(old(db.tables), email, name, picture, provider, newId, now, fault)
    {
      var row := NewUserRow(newId, email, name, picture, provider, now);
      if fault.Some? {
        return Failure(Unavailable(fault.value));
      }
      match InsertUser(db.tables, row)
      case Failure(e) =>
        r := Failure(e);
      case Success(t) =>
        db.tables := t;
        r := Success(UserFromModel(row));
    }

    /** `get`. */
    method Get(userId: string) returns (r: Option<UserRecord>)
      ensures r.Some? <==> userId in db.tables.users
      ensures r.Some? ==> r.value == UserFromModel(db.tables.users[userId])
    {
      if userId in db.tables.users {
        r := Some(UserFromModel(db.tables.users[userId]));
      } else {
        r := None;
      }
    }

    /** `get_by_email`: the query is lower-cased before the lookup. */
    method GetByEmail(email: string) returns (r: Option<UserRecord>)
      requires db.Valid()
      ensures r.Some? <==> exists id :: id in db.tables.users && db.tables.users[id].email == Lower(email)
      ensures r.Some? ==> r.value.email == Lower(email) && r.value.userId in db.tables.users
      ensures r.Some? ==> r.value == UserFromModel(db.tables.users[r.value.userId])
      ensures r.Some? ==> UserByEmail(db.tables, email) == Some(db.tables.users[r.value.userId])
    {
      match UserByEmail(db.tables, email)
      case None =>
        r := None;
      case Some(row) =>
        r := Some(UserFromModel(row));
    }

    /** `exists`: the same test as `get(user_id) is not None`. */
    method Exists(userId: string) returns (b: bool)
      ensures b <==> userId in db.tables.users
    {
      b := userId in db.tables.users;
    }

    /** `exists_by_email`: the same test as `get_by_email(email) is not None`. */
    method ExistsByEmail(email: string) returns (b: bool)
      requires db.Valid()
      ensures b <==> exists id :: id in db.tables.users && db.tables.users[id].email == Lower(email)
    {
      b := UserByEmail(db.tables, email).Some?;
    }

    /** `update`: assigns the given fields of the loaded row, then commits. */
    method Update(userId: string, name: Option<string>, picture: Option<string>, fault: Option<string>)
      returns (r: Result<Option<UserRecord>, DbError>)
      requires db.Valid()
      modifies db
      ensures db.Valid()
      ensures Committed(r, db.tables) == UpdateUser(old(db.tables), userId, name, picture, fault)
    {
      if userId !in db.tables.users {
        return Success(None);
      }
      var row := db.tables.users[userId];
      if name.Some? {
        row := row.(name := name);
      }
      if picture.Some? {
        row := row.(picture := picture);
      }
      if fault.Some? {
        return Failure(Unavailable(fault.value));
      }
      match ReplaceUser(db.tables, row)
      case Failure(e) =>
        r := Failure(e);
      case Success(t) =>
        db.tables := t;
        r := Success(Some(UserFromModel(row)));
    }
  }

  /** `VoiceStorage`. */
  class VoiceStorage {
    const db: Database

    constructor (db: Database)
      ensures this.db == db
    {
      this.db := db;
    }

    /** `create`: inserts a voice owned by `userId` and returns its record. */
    method Create(userId: string, filename: string, filePath: string, embeddingPath: Option<string>,
                  duration: Option<Duration>, sampleRate: Option<int>, name: Option<string>,
                  description: Option<string>, newId: string, now: int, fault: Option<string>)
      returns (r: Result<VoiceRecord, DbError>)
      requires db.Valid()
      modifies db
      ensures db.Valid()
      ensures Committed(r, db.tables) == CreateVoice(old(db.tables),
        VoiceRow(newId, userId, filename, filePath, embeddingPath, duration, sampleRate, name, description, now), fault)
    {
      var row := VoiceRow(newId, userId, filename, filePath, embeddingPath, duration, sampleRate, name, description, now);
      if fault.Some? {
        return Failure(Unavailable(fault.value));
      }
      match InsertVoice(db.tables, row)
      case Failure(e) =>
        r := Failure(e);
      case Success(t) =>
        db.tables := t;
        r := Success(VoiceFromModel(row));
    }

    /** `get`. */
    method Get(voiceId: string) returns (r: Option<VoiceRecord>)
      ensures r.Some? <==> voiceId in db.tables.voices
      ensures r.Some? ==> r.value == VoiceFromModel(db.tables.voices[voiceId])
    {
      if voiceId in db.tables.voices {
        r := Some(VoiceFromModel(db.tables.voices[voiceId]));
      } else {
        r := None;
      }
    }

    /** `exists`: the same test as `get(voice_id) is not None`. */
    method Exists(voiceId: string) returns (b: bool)
      ensures b <==> voiceId in db.tables.voices
    {
      b := voiceId in db.tables.voices;
    }

    /** `delete`. */
    method Delete(voiceId: string, fault: Option<string>) returns (r: Result<bool, DbError>)
      requires db.Valid()
      modifies db
      ensures db.Valid()
      ensures Committed(r, db.tables) == RemoveVoice(old(db.tables), voiceId, fault)
    {
      if voiceId !in db.tables.voices {
        return Success(false);
      }
      if fault.Some? {
        return Failure(Unavailable(fault.value));
      }
      db.tables := DeleteVoice(db.tables, voiceId);
      r := Success(true);
    }

    /** The records of the voices `ids`, in the order the query yields them. */
    method Collect(ids: set<string>) returns (records: seq<VoiceRecord>)
      requires db.Valid() && ids <= db.tables.voices.Keys
      ensures Lists(records, db.tables.voices, ids)
    {
      records := [];
      var rest := ids;
      while rest != {}
        invariant rest <= ids
        invariant Lists(records, db.tables.voices, ids - rest)
        decreases |rest|
      {
        var v :| v in rest;
        ListsAppend(records, db.tables.voices, ids - rest, v);
        assert ids - (rest - {v}) == (ids - rest) + {v};
        records := records + [VoiceFromModel(db.tables.voices[v])];
        rest := rest - {v};
      }
    }

    /** `list_all`: every voice, once. */
    method ListAll() returns (records: seq<VoiceRecord>)
      requires db.Valid()
      ensures Lists(records, db.tables.voices, db.tables.voices.Keys)
    {
      records := Collect(db.tables.voices.Keys);
    }

    /** `list_by_user`: exactly the voices `userId` owns, once each. */
    method ListByUser(userId: string) returns (records: seq<VoiceRecord>)
      requires db.Valid()
      ensures Lists(records, db.tables.voices, OwnedBy(db.tables.voices, userId))
    {
      records := Collect(OwnedBy(db.tables.voices, userId));
    }
  }
}
