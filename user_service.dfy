/**
 * The user application service (src/application/users/service.py).
 *
 * Its ports are kept as state of the service: the write store as a map from
 * user id to the row it stores (`is_active` as the text "true" or "false"), the
 * read model as a collection of documents, the cache as a map from id to the
 * cached dictionary, and a trace of every call made on a port. Each operation
 * is stated against a pure function of the previous `UserStore`; the
 * properties of the service are lemmas about those functions.
 *
 * Read-model writes are wrapped in `try` and their failure is swallowed; read
 * model queries and every cache call are not, so a cache failure after the
 * write store was updated still makes the call raise.
 */
module UserService {
  import opened Common
  import opened Text
  import opened Events
  import opened UserValues
  import opened UserEntities
  import opened Ports

  // ---------------------------------------------------------------------
  // Rows of the write store: `_to_model` and `_to_entity`

  datatype UserRow = UserRow(
    id: Uuid, email: string, name: string, isActive: string,
    createdAt: Timestamp, updatedAt: Timestamp)

  /** `str(flag).lower()` */
  function ActiveText(b: bool): string {
    if b then "true" else "false"
  }

  /** `UserRepository._to_model` */
  function RowOf(u: UserRecord): UserRow {
    UserRow(u.id, u.email.value, u.name, ActiveText(u.isActive), u.createdAt, u.updatedAt)
  }

  /** `UserRepository._to_entity`: the stored address is validated again, and
      the flag is whatever lower-cases to "true". */
  function EntityOf(row: UserRow): Result<UserRecord> {
    match NewEmailAsWritten(row.email)
    case Err(e) => Err(e)
    case Ok(em) => Ok(UserRecord(row.id, em, row.name, LowerAscii(row.isActive) == "true",
                                 row.createdAt, row.updatedAt))
  }

  /** A row as the repository writes it. */
  predicate ValidRow(id: Uuid, row: UserRow) {
    row.id == id && RegexMatches(row.email) && !IsBlank(row.name)
    && (row.isActive == "true" || row.isActive == "false")
  }

  /** A user with a valid address survives the trip through its row. */
  lemma RowRoundTrip(u: UserRecord)
    requires RegexMatches(u.email.value)
    ensures EntityOf(RowOf(u)) == Ok(u)
    ensures ValidUser(u) ==> ValidRow(u.id, RowOf(u))
  {
    LowerOfLower("true");
    LowerOfLower("false");
  }

  /** Every row the repository writes loads, and writing the loaded user back
      gives the same row. */
  lemma RowLoads(id: Uuid, row: UserRow)
    requires ValidRow(id, row)
    ensures EntityOf(row).Ok? && RowOf(EntityOf(row).value) == row
    ensures EntityOf(row).value.id == id && ValidUser(EntityOf(row).value)
  {
    LowerOfLower("true");
    LowerOfLower("false");
  }

  /** `UserRepository.update`: nothing for an unknown id; otherwise rewrites
      email, name, flag and timestamp and keeps the creation time. */
  function UpdateUserRow(users: map<Uuid, UserRow>, rec: UserRecord): map<Uuid, UserRow> {
    if rec.id in users then
      users[rec.id := users[rec.id].(email := rec.email.value, name := rec.name,
                                     isActive := ActiveText(rec.isActive), updatedAt := rec.updatedAt)]
    else users
  }

  lemma UpdateUserRowSpec(users: map<Uuid, UserRow>, rec: UserRecord)
    ensures rec.id !in users ==> UpdateUserRow(users, rec) == users
    ensures rec.id in users && users[rec.id].id == rec.id && users[rec.id].createdAt == rec.createdAt
            ==> UpdateUserRow(users, rec) == users[rec.id := RowOf(rec)]
    ensures UpdateUserRow(users, rec).Keys == users.Keys
  {
  }

  // ---------------------------------------------------------------------
  // Data transfer objects and the dictionaries of the read model and cache

  datatype UserDto = UserDto(
    id: Uuid, email: string, name: string, isActive: bool,
    createdAt: Timestamp, updatedAt: Timestamp)

  /** `_to_dto` */
  function DtoOf(u: UserRecord): UserDto {
    UserDto(u.id, u.email.value, u.name, u.isActive, u.createdAt, u.updatedAt)
  }

  /** The dictionary `_to_read_model_dict` and `_to_cache_dict` both build. */
  datatype UserDoc = UserDoc(
    id: string, email: string, name: string, isActive: bool,
    createdAt: string, updatedAt: string)

  /** `_to_read_model_dict`, and `_to_cache_dict`, which is the same mapping. */
  function ToDoc(d: UserDto): UserDoc {
    UserDoc(UuidText(d.id), d.email, d.name, d.isActive, TimeText(d.createdAt), TimeText(d.updatedAt))
  }

  /** `_from_read_model_dict` and `_from_cache_dict`: `UUID(...)` and
      `datetime.fromisoformat(...)` raise on malformed text. */
  function FromDoc(doc: UserDoc): Result<UserDto> {
    match (ParseUuid(doc.id), ParseTime(doc.createdAt), ParseTime(doc.updatedAt))
    case (Some(id), Some(c), Some(u)) => Ok(UserDto(id, doc.email, doc.name, doc.isActive, c, u))
    case _ => Err(MalformedDocument)
  }

  lemma DocRoundTrip(d: UserDto)
    ensures FromDoc(ToDoc(d)) == Ok(d)
  {
    UuidTextRoundTrip(d.id);
    TimeTextRoundTrip(d.createdAt);
    TimeTextRoundTrip(d.updatedAt);
  }

  /** A document the service wrote: it reads back, and writing what it reads
      back gives it again. */
  predicate Canonical(doc: UserDoc) {
    FromDoc(doc).Ok? && ToDoc(FromDoc(doc).value) == doc
  }

  lemma DtoDocCanonical(d: UserDto)
    ensures Canonical(ToDoc(d)) && FromDoc(ToDoc(d)).value.id == d.id
  {
    DocRoundTrip(d);
  }

  /** Documents are found by `{"id": ...}`. */
  function DocKey(d: UserDoc): string { d.id }

  /** `[self._from_read_model_dict(data) for data in read_data_list]` */
  function DocsToDtos(docs: seq<UserDoc>): (r: Result<seq<UserDto>>)
    ensures r.Ok? <==> forall i :: 0 <= i < |docs| ==> FromDoc(docs[i]).Ok?
    ensures r.Ok? ==> |r.value| == |docs| && forall i :: 0 <= i < |docs| ==> FromDoc(docs[i]) == Ok(r.value[i])
  {
    Traverse(FromDoc, docs)
  }

  // ---------------------------------------------------------------------
  // `search_by_email`: `find({"email": {"$regex": e, "$options": "i"}}).limit(100)`

  const SearchLimit: nat := 100

  /** `p` occurs in `s` as a contiguous run. */
  predicate ContainsText(s: string, p: string)
    decreases |s|
  {
    |p| <= |s| && (s[..|p|] == p || ContainsText(s[1..], p))
  }

  /** The pattern, read as literal text, occurs in the address ignoring ASCII case. */
  predicate EmailMatches(doc: UserDoc, pattern: string) {
    ContainsText(LowerAscii(doc.email), LowerAscii(pattern))
  }

  function Matching(docs: seq<UserDoc>, pattern: string): (r: seq<UserDoc>)
    ensures |r| <= |docs|
    ensures forall i :: 0 <= i < |r| ==> r[i] in docs && EmailMatches(r[i], pattern)
    ensures forall i :: 0 <= i < |docs| && EmailMatches(docs[i], pattern) ==> docs[i] in r
  {
    if docs == [] then []
    else (if EmailMatches(docs[0], pattern) then [docs[0]] else []) + Matching(docs[1..], pattern)
  }

  function SearchDocs(docs: seq<UserDoc>, pattern: string): seq<UserDoc> {
    var hits := Matching(docs, pattern);
    if |hits| <= SearchLimit then hits else hits[..SearchLimit]
  }

  /** At most 100 documents, each one a match; when there are fewer than 100
      matches, all of them. */
  lemma SearchDocsSpec(docs: seq<UserDoc>, pattern: string)
    ensures |SearchDocs(docs, pattern)| <= SearchLimit
    ensures forall i :: 0 <= i < |SearchDocs(docs, pattern)| ==>
              SearchDocs(docs, pattern)[i] in docs && EmailMatches(SearchDocs(docs, pattern)[i], pattern)
    ensures |Matching(docs, pattern)| <= SearchLimit ==>
              forall i :: 0 <= i < |docs| && EmailMatches(docs[i], pattern) ==> docs[i] in SearchDocs(docs, pattern)
  {
    var hits := Matching(docs, pattern);
    if |hits| > SearchLimit {
      assert forall i :: 0 <= i < SearchLimit ==> hits[..SearchLimit][i] == hits[i];
    }
  }

  // ---------------------------------------------------------------------
  // The ports' state

  datatype UserStore = UserStore(
    users: map<Uuid, UserRow>, readModel: seq<UserDoc>, cache: map<Uuid, UserDoc>, log: seq<PortCall>)

  /** The unique constraint on the `email` column. */
  predicate UniqueEmails(users: map<Uuid, UserRow>) {
    forall a, b :: a in users && b in users && users[a].email == users[b].email ==> a == b
  }

  /** `get_by_email` finds a row. */
  predicate EmailTaken(users: map<Uuid, UserRow>, email: string) {
    exists k :: k in users && users[k].email == email
  }

  /** Rows are stored under their own id as the repository writes them, with
      distinct addresses. */
  predicate RowsValid(users: map<Uuid, UserRow>) {
    (forall id :: id in users ==> ValidRow(id, users[id])) && UniqueEmails(users)
  }

  /** At most one document per id, each one readable. */
  predicate DocsValid(docs: seq<UserDoc>) {
    UniqueKeys(docs, DocKey) && forall doc :: doc in docs ==> Canonical(doc)
  }

  /** Every entry readable and stored under its own id. */
  predicate CacheValid(cache: map<Uuid, UserDoc>) {
    forall id :: id in cache ==> Canonical(cache[id]) && FromDoc(cache[id]).value.id == id
  }

  /** What every service call preserves. A document may outlive its row: a
      failed read-model delete is swallowed. */
  predicate ValidStore(s: UserStore) {
    RowsValid(s.users) && DocsValid(s.readModel) && CacheValid(s.cache)
  }

  lemma RowsPut(users: map<Uuid, UserRow>, rec: UserRecord)
    requires RowsValid(users) && ValidUser(rec) && RegexMatches(rec.email.value)
    requires forall k :: k in users && users[k].email == rec.email.value ==> k == rec.id
    ensures RowsValid(users[rec.id := RowOf(rec)])
  {
    RowRoundTrip(rec);
  }

  lemma DocsPut(docs: seq<UserDoc>, dto: UserDto)
    requires DocsValid(docs)
    ensures DocsValid(UpsertDoc(docs, DocKey, UuidText(dto.id), ToDoc(dto)))
  {
    DtoDocCanonical(dto);
    UpsertSpec(docs, DocKey, ToDoc(dto), "");
    UpsertMembers(docs, DocKey, UuidText(dto.id), ToDoc(dto));
  }

  lemma DocsAppend(docs: seq<UserDoc>, dto: UserDto)
    requires DocsValid(docs) && forall i :: 0 <= i < |docs| ==> DocKey(docs[i]) != UuidText(dto.id)
    ensures DocsValid(docs + [ToDoc(dto)])
  {
    DtoDocCanonical(dto);
    var r := docs + [ToDoc(dto)];
    assert forall i :: 0 <= i < |docs| ==> r[i] == docs[i];
  }

  lemma DocsDelete(docs: seq<UserDoc>, k: string)
    requires DocsValid(docs)
    ensures DocsValid(DeleteOne(docs, DocKey, k))
  {
    DeleteOneSpec(docs, DocKey, k, "");
    DeleteOneMembers(docs, DocKey, k);
  }

  lemma CachePut(cache: map<Uuid, UserDoc>, dto: UserDto)
    requires CacheValid(cache)
    ensures CacheValid(cache[dto.id := ToDoc(dto)])
  {
    DtoDocCanonical(dto);
  }

  /** What `uuid4()` gives: an id that no store has seen. */
  predicate FreshId(s: UserStore, id: Uuid) {
    id !in s.users && id !in s.cache && forall i :: 0 <= i < |s.readModel| ==> DocKey(s.readModel[i]) != UuidText(id)
  }

  // ---------------------------------------------------------------------
  // The operations, as functions of the store

  /** `self._cache.set(user_id, self._to_cache_dict(dto), self._cache_ttl)` when the cache is up. */
  function Cached(s: UserStore, id: Uuid, dto: UserDto, ttl: int): UserStore {
    s.(cache := s.cache[id := ToDoc(dto)], log := s.log + [CacheSet(id, ttl)])
  }

  /** The unguarded cache write that ends the commands. */
  function CacheStep(s: UserStore, id: Uuid, dto: UserDto, ttl: int, faults: Faults): (UserStore, Result<UserDto>) {
    if faults.cacheDown then (s.(log := s.log + [CacheSet(id, ttl)]), Err(CacheUnavailable))
    else (Cached(s, id, dto, ttl), Ok(dto))
  }

  /** `update`, publish, `_to_dto`, the guarded read-model update, the cache write. */
  function SaveEffect(s: UserStore, rec: UserRecord, events: seq<DomainEvent>, ttl: int, faults: Faults)
    : (UserStore, Result<UserDto>)
  {
    var written := s.(users := UpdateUserRow(s.users, rec),
                      log := s.log + [RepoUpdate(rec.id)] + PublishCalls(events));
    var dto := DtoOf(rec);
    var mirrored := written.(readModel := if faults.readModelDown then written.readModel
                                          else UpsertDoc(written.readModel, DocKey, UuidText(rec.id), ToDoc(dto)),
                             log := written.log + [ReadUpdate(rec.id)]);
    CacheStep(mirrored, rec.id, dto, ttl, faults)
  }

  /** `create_user` */
  function CreateUserEffect(s: UserStore, email: string, name: string, newId: Uuid, now: Timestamp,
                            ttl: int, faults: Faults): (UserStore, Result<UserDto>)
  {
    match NewEmailAsWritten(email)
    case Err(e) => (s, Err(e))
    case Ok(em) =>
      var checked := s.(log := s.log + [RepoGetByEmail(email)]);
      if EmailTaken(s.users, email) then (checked, Err(UserEmailAlreadyExists))
      else match NewUserRecord(newId, em, name, now)
        case Err(e) => (checked, Err(e))
        case Ok(rec) =>
          var written := checked.(users := s.users[newId := RowOf(rec)],
                                  log := checked.log + [RepoAdd(newId), Publish("user_registered", IdPayload("user_id", newId))]);
          var dto := DtoOf(rec);
          var mirrored := written.(readModel := if faults.readModelDown then s.readModel else s.readModel + [ToDoc(dto)],
                                   log := written.log + [ReadCreate(newId)]);
          CacheStep(mirrored, newId, dto, ttl, faults)
  }

  /** `get_user`: the cache, then the read model, then the write store; a hit
      below the cache is written back to it. */
  function GetUserEffect(s: UserStore, id: Uuid, ttl: int, faults: Faults): (UserStore, Result<Option<UserDto>>) {
    var asked := s.(log := s.log + [CacheGet(id)]);
    if faults.cacheDown then (asked, Err(CacheUnavailable))
    else if id in s.cache then
      (asked, match FromDoc(s.cache[id]) case Err(e) => Err(e) case Ok(d) => Ok(Some(d)))
    else
      var read := asked.(log := asked.log + [ReadGetById(id)]);
      if faults.readModelDown then (read, Err(ReadModelUnavailable))
      else match FindOne(s.readModel, DocKey, UuidText(id))
        case Some(doc) =>
          (match FromDoc(doc)
           case Err(e) => (read, Err(e))
           case Ok(d) => (Cached(read, id, d, ttl), Ok(Some(d))))
        case None =>
          var loaded := read.(log := read.log + [RepoGetById(id)]);
          if id !in s.users then (loaded, Ok(None))
          else match EntityOf(s.users[id])
            case Err(e) => (loaded, Err(e))
            case Ok(rec) => (Cached(loaded, id, DtoOf(rec), ttl), Ok(Some(DtoOf(rec))))
  }

  /** `get_user_by_email`: the write store only. */
  ghost function GetUserByEmailEffect(s: UserStore, email: string): (UserStore, Result<Option<UserDto>>) {
    match NewEmailAsWritten(email)
    case Err(e) => (s, Err(e))
    case Ok(_) =>
      var asked := s.(log := s.log + [RepoGetByEmail(email)]);
      if !EmailTaken(s.users, email) then (asked, Ok(None))
      else
        var k :| k in s.users && s.users[k].email == email;
        (asked, match EntityOf(s.users[k]) case Err(e) => Err(e) case Ok(rec) => Ok(Some(DtoOf(rec))))
  }

  /** `if command.name: user.update_name(command.name)` */
  function RenameStep(rec: UserRecord, name: Option<string>, now: Timestamp): Result<(UserRecord, seq<DomainEvent>)> {
    if name.Some? && name.value != "" then
      match RenamedRecord(rec, name.value, now)
      case Err(e) => Err(e)
      case Ok(r) => Ok((r, [UserEvent("user_name_updated", rec.id, now)]))
    else Ok((rec, []))
  }

  /** `if command.email:` and the rest of `update_user`. The uniqueness check
      runs only when the address differs from the current one; `update_email`
      runs whenever an address is given. */
  function EmailStep(s: UserStore, rec: UserRecord, events: seq<DomainEvent>, email: Option<string>, now: Timestamp,
                     ttl: int, faults: Faults): (UserStore, Result<UserDto>)
  {
    if !(email.Some? && email.value != "") then SaveEffect(s, rec, events, ttl, faults)
    else match NewEmailAsWritten(email.value)
      case Err(e) => (s, Err(e))
      case Ok(em) =>
        var changed := rec.email != em;
        var checked := if changed then s.(log := s.log + [RepoGetByEmail(email.value)]) else s;
        if changed && EmailTaken(s.users, email.value) then (checked, Err(UserEmailAlreadyExists))
        else SaveEffect(checked, rec.(email := em, updatedAt := now),
                        events + [UserEvent("user_email_updated", rec.id, now)], ttl, faults)
  }

  /** `update_user` */
  function UpdateUserEffect(s: UserStore, id: Uuid, name: Option<string>, email: Option<string>, now: Timestamp,
                            ttl: int, faults: Faults): (UserStore, Result<UserDto>)
  {
    var loaded := s.(log := s.log + [RepoGetById(id)]);
    if id !in s.users then (loaded, Err(UserNotFound))
    else match EntityOf(s.users[id])
      case Err(e) => (loaded, Err(e))
      case Ok(rec0) =>
        match RenameStep(rec0, name, now)
        case Err(e) => (loaded, Err(e))
        case Ok((rec1, events)) => EmailStep(loaded, rec1, events, email, now, ttl, faults)
  }

  /** `delete_user` */
  function DeleteUserEffect(s: UserStore, id: Uuid, faults: Faults): (UserStore, Outcome) {
    var loaded := s.(log := s.log + [RepoGetById(id)]);
    if id !in s.users then (loaded, Fail(UserNotFound))
    else match EntityOf(s.users[id])
      case Err(e) => (loaded, Fail(e))
      case Ok(_) =>
        var deleted := loaded.(users := s.users - {id}, log := loaded.log + [RepoDelete(id), ReadDelete(id)]);
        var unread := if faults.readModelDown then deleted
                      else deleted.(readModel := DeleteOne(s.readModel, DocKey, UuidText(id)));
        var log := unread.log + [CacheDelete(id)];
        if faults.cacheDown then (unread.(log := log), Fail(CacheUnavailable))
        else (unread.(cache := unread.cache - {id}, log := log), Pass)
  }

  /** `update`, publish, `_to_dto` and the cache write, without the read model. */
  function StoreEffect(s: UserStore, rec: UserRecord, events: seq<DomainEvent>, ttl: int, faults: Faults)
    : (UserStore, Result<UserDto>)
  {
    var written := s.(users := UpdateUserRow(s.users, rec), log := s.log + [RepoUpdate(rec.id)] + PublishCalls(events));
    CacheStep(written, rec.id, DtoOf(rec), ttl, faults)
  }

  /** `activate` (`active`) or `deactivate` (not `active`) on values: a user
      already in that state is left as it is and records nothing. */
  function Toggle(rec: UserRecord, active: bool, now: Timestamp): (UserRecord, seq<DomainEvent>) {
    if rec.isActive == active then (rec, [])
    else (rec.(isActive := active, updatedAt := now),
          [UserEvent(if active then "user_activated" else "user_deactivated", rec.id, now)])
  }

  /** `activate_user` / `deactivate_user`: the read model is not updated. */
  function SetActiveEffect(s: UserStore, id: Uuid, active: bool, now: Timestamp, ttl: int, faults: Faults)
    : (UserStore, Result<UserDto>)
  {
    var loaded := s.(log := s.log + [RepoGetById(id)]);
    if id !in s.users then (loaded, Err(UserNotFound))
    else match EntityOf(s.users[id])
      case Err(e) => (loaded, Err(e))
      case Ok(rec0) =>
        var (rec, events) := Toggle(rec0, active, now);
        StoreEffect(loaded, rec, events, ttl, faults)
  }

  /** `search_users`: only an e-mail query is answered, from the read model. */
  function SearchEffect(s: UserStore, email: Option<string>, faults: Faults): (UserStore, Result<seq<UserDto>>) {
    if !(email.Some? && email.value != "") then (s, Ok([]))
    else
      var asked := s.(log := s.log + [ReadSearch(email.value)]);
      if faults.readModelDown then (asked, Err(ReadModelUnavailable))
      else (asked, DocsToDtos(SearchDocs(s.readModel, email.value)))
  }

  // ---------------------------------------------------------------------
  // Invariant preservation

  /** The row of a loaded user, rewritten with changes that keep it valid. */
  lemma SavePreservesValid(s: UserStore, rec: UserRecord, events: seq<DomainEvent>, ttl: int, faults: Faults)
    requires ValidStore(s) && rec.id in s.users && ValidUser(rec) && RegexMatches(rec.email.value)
    requires rec.createdAt == s.users[rec.id].createdAt
    requires forall k :: k in s.users && s.users[k].email == rec.email.value ==> k == rec.id
    ensures ValidStore(SaveEffect(s, rec, events, ttl, faults).0)
  {
    UpdateUserRowSpec(s.users, rec);
    RowsPut(s.users, rec);
    DocsPut(s.readModel, DtoOf(rec));
    CachePut(s.cache, DtoOf(rec));
  }

  lemma CreatePreservesValid(s: UserStore, email: string, name: string, newId: Uuid, now: Timestamp,
                             ttl: int, faults: Faults)
    requires ValidStore(s) && FreshId(s, newId)
    ensures ValidStore(CreateUserEffect(s, email, name, newId, now, ttl, faults).0)
  {
    if NewEmailAsWritten(email).Ok? && !EmailTaken(s.users, email) && NewUserRecord(newId, NewEmailAsWritten(email).value, name, now).Ok? {
      var rec := NewUserRecord(newId, NewEmailAsWritten(email).value, name, now).value;
      RowsPut(s.users, rec);
      DocsAppend(s.readModel, DtoOf(rec));
      CachePut(s.cache, DtoOf(rec));
      CreateEffectOk(s, email, name, newId, now, ttl, faults, rec);
    }
  }

  lemma GetUserPreservesValid(s: UserStore, id: Uuid, ttl: int, faults: Faults)
    requires ValidStore(s)
    ensures ValidStore(GetUserEffect(s, id, ttl, faults).0)
  {
    if !faults.cacheDown && id !in s.cache && !faults.readModelDown {
      match FindOne(s.readModel, DocKey, UuidText(id))
      case Some(doc) =>
        var j := FirstMatch(s.readModel, DocKey, UuidText(id)).value;
        assert doc == s.readModel[j] && Canonical(doc);
        UuidTextInjective(FromDoc(doc).value.id, id);
        CachePut(s.cache, FromDoc(doc).value);
      case None =>
        if id in s.users {
          RowLoads(id, s.users[id]);
          CachePut(s.cache, DtoOf(EntityOf(s.users[id]).value));
        }
    }
  }

  lemma EmailStepPreservesValid(s: UserStore, rec: UserRecord, events: seq<DomainEvent>, email: Option<string>,
                                now: Timestamp, ttl: int, faults: Faults)
    requires ValidStore(s) && rec.id in s.users && ValidUser(rec) && s.users[rec.id].email == rec.email.value
    requires s.users[rec.id].createdAt == rec.createdAt
    ensures ValidStore(EmailStep(s, rec, events, email, now, ttl, faults).0)
  {
    RowLoads(rec.id, s.users[rec.id]);
    if !(email.Some? && email.value != "") {
      SavePreservesValid(s, rec, events, ttl, faults);
    } else if NewEmailAsWritten(email.value).Ok? {
      var em := NewEmailAsWritten(email.value).value;
      var changed := rec.email != em;
      var checked := if changed then s.(log := s.log + [RepoGetByEmail(email.value)]) else s;
      if !(changed && EmailTaken(s.users, email.value)) {
        SavePreservesValid(checked, rec.(email := em, updatedAt := now),
                           events + [UserEvent("user_email_updated", rec.id, now)], ttl, faults);
      }
    }
  }

  lemma UpdatePreservesValid(s: UserStore, id: Uuid, name: Option<string>, email: Option<string>, now: Timestamp,
                             ttl: int, faults: Faults)
    requires ValidStore(s)
    ensures ValidStore(UpdateUserEffect(s, id, name, email, now, ttl, faults).0)
  {
    if id in s.users {
      RowLoads(id, s.users[id]);
      var rec0 := EntityOf(s.users[id]).value;
      if RenameStep(rec0, name, now).Ok? {
        var (rec1, events) := RenameStep(rec0, name, now).value;
        EmailStepPreservesValid(s.(log := s.log + [RepoGetById(id)]), rec1, events, email, now, ttl, faults);
      }
    }
  }

  lemma DeletePreservesValid(s: UserStore, id: Uuid, faults: Faults)
    requires ValidStore(s)
    ensures ValidStore(DeleteUserEffect(s, id, faults).0)
  {
    DocsDelete(s.readModel, UuidText(id));
  }

  /** `delete_user`: an unknown id raises `UserNotFoundError` after the lookup
      alone. A stored user is deleted from the write store, then from the read
      model, then from the cache, in that order; only the cache delete can make
      the call raise, and by then the row is gone. */
  lemma DeleteUserSpec(s: UserStore, id: Uuid, faults: Faults)
    requires ValidStore(s)
    ensures id !in s.users ==>
              DeleteUserEffect(s, id, faults) == (s.(log := s.log + [RepoGetById(id)]), Fail(UserNotFound))
    ensures id in s.users ==>
              var (s', o) := DeleteUserEffect(s, id, faults);
              s'.users == s.users - {id}
              && s'.log == s.log + [RepoGetById(id), RepoDelete(id), ReadDelete(id), CacheDelete(id)]
              && (o == Pass <==> !faults.cacheDown)
              && (o != Pass ==> o == Fail(CacheUnavailable) && s'.cache == s.cache)
              && (o == Pass ==> id !in s'.cache)
  {
    if id in s.users {
      RowLoads(id, s.users[id]);
      var loaded := s.(log := s.log + [RepoGetById(id)]);
      var deleted := loaded.(users := s.users - {id}, log := loaded.log + [RepoDelete(id), ReadDelete(id)]);
      var unread := if faults.readModelDown then deleted
                    else deleted.(readModel := DeleteOne(s.readModel, DocKey, UuidText(id)));
      var log := unread.log + [CacheDelete(id)];
      assert unread.users == s.users - {id} && unread.cache == s.cache;
      assert DeleteUserEffect(s, id, faults)
          == if faults.cacheDown then (unread.(log := log), Fail(CacheUnavailable))
             else (unread.(cache := unread.cache - {id}, log := log), Pass);
      assert log == s.log + [RepoGetById(id), RepoDelete(id), ReadDelete(id), CacheDelete(id)];
    }
  }

  /** `activate_user` / `deactivate_user` on a stored user, in closed form. */
  lemma SetActiveLoaded(s: UserStore, id: Uuid, active: bool, now: Timestamp, ttl: int, faults: Faults)
    requires ValidStore(s) && id in s.users
    ensures EntityOf(s.users[id]).Ok?
    ensures var (rec, events) := Toggle(EntityOf(s.users[id]).value, active, now);
            SetActiveEffect(s, id, active, now, ttl, faults)
            == CacheStep(UserStore(s.users[id := RowOf(rec)], s.readModel, s.cache,
                                   s.log + [RepoGetById(id), RepoUpdate(id)] + PublishCalls(events)),
                         id, DtoOf(rec), ttl, faults)
  {
    RowLoads(id, s.users[id]);
    var (rec, events) := Toggle(EntityOf(s.users[id]).value, active, now);
    UpdateUserRowSpec(s.users, rec);
    assert s.log + [RepoGetById(id)] + [RepoUpdate(id)] == s.log + [RepoGetById(id), RepoUpdate(id)];
  }

  /** `activate_user` / `deactivate_user` on an unknown id raise
      `UserNotFoundError` after the lookup alone and write nothing. */
  lemma SetActiveMissing(s: UserStore, id: Uuid, active: bool, now: Timestamp, ttl: int, faults: Faults)
    requires id !in s.users
    ensures SetActiveEffect(s, id, active, now, ttl, faults) == (s.(log := s.log + [RepoGetById(id)]), Err(UserNotFound))
  {
  }

  lemma SetActivePreservesValid(s: UserStore, id: Uuid, active: bool, now: Timestamp, ttl: int, faults: Faults)
    requires ValidStore(s)
    ensures ValidStore(SetActiveEffect(s, id, active, now, ttl, faults).0)
  {
    if id in s.users {
      SetActiveLoaded(s, id, active, now, ttl, faults);
      var rec := Toggle(EntityOf(s.users[id]).value, active, now).0;
      RowLoads(id, s.users[id]);
      RowsPut(s.users, rec);
      CachePut(s.cache, DtoOf(rec));
    }
  }

  // ---------------------------------------------------------------------
  // Properties of the operations

  /** The new user in closed form, when the address is valid and free and the
      name is not blank. */
  lemma CreateEffectOk(s: UserStore, email: string, name: string, newId: Uuid, now: Timestamp,
                       ttl: int, faults: Faults, rec: UserRecord)
    requires NewEmailAsWritten(email).Ok? && !EmailTaken(s.users, email)
    requires NewUserRecord(newId, NewEmailAsWritten(email).value, name, now) == Ok(rec)
    ensures CreateUserEffect(s, email, name, newId, now, ttl, faults)
            == CacheStep(UserStore(s.users[newId := RowOf(rec)],
                                   if faults.readModelDown then s.readModel else s.readModel + [ToDoc(DtoOf(rec))],
                                   s.cache,
                                   s.log + [RepoGetByEmail(email)] + [RepoAdd(newId)]
                                   + [Publish("user_registered", IdPayload("user_id", newId))] + [ReadCreate(newId)]),
                         newId, DtoOf(rec), ttl, faults)
  {
    var pub := Publish("user_registered", IdPayload("user_id", newId));
    var em := NewEmailAsWritten(email).value;
    assert NewEmailAsWritten(email) == Ok(em);
    var checked := s.(log := s.log + [RepoGetByEmail(email)]);
    var written := checked.(users := s.users[newId := RowOf(rec)], log := checked.log + [RepoAdd(newId), pub]);
    var dto := DtoOf(rec);
    var mirrored := written.(readModel := if faults.readModelDown then s.readModel else s.readModel + [ToDoc(dto)],
                             log := written.log + [ReadCreate(newId)]);
    assert CreateUserEffect(s, email, name, newId, now, ttl, faults) == CacheStep(mirrored, newId, dto, ttl, faults);
    assert [RepoAdd(newId)] + [pub] == [RepoAdd(newId), pub];
    assert mirrored.log == s.log + [RepoGetByEmail(email)] + [RepoAdd(newId)] + [pub] + [ReadCreate(newId)];
    assert mirrored == UserStore(s.users[newId := RowOf(rec)],
                                 if faults.readModelDown then s.readModel else s.readModel + [ToDoc(dto)],
                                 s.cache, mirrored.log);
  }

  /** Helper for `CreateUser`: the successful create in the form the method
      computes it, with the entity's buffered events, and the store it leaves
      is valid. */
  lemma CreateUserOk(s: UserStore, email: string, name: string, newId: Uuid, now: Timestamp,
                     ttl: int, faults: Faults, rec: UserRecord, events: seq<DomainEvent>)
    requires ValidStore(s) && FreshId(s, newId)
    requires NewEmailAsWritten(email).Ok? && !EmailTaken(s.users, email)
    requires NewUserRecord(newId, NewEmailAsWritten(email).value, name, now) == Ok(rec)
    requires events == [UserEvent("user_registered", newId, now)]
    ensures CreateUserEffect(s, email, name, newId, now, ttl, faults)
            == CacheStep(UserStore(s.users[newId := RowOf(rec)],
                                   if faults.readModelDown then s.readModel else s.readModel + [ToDoc(DtoOf(rec))],
                                   s.cache, s.log + [RepoGetByEmail(email)] + [RepoAdd(newId)] + PublishCalls(events)
                                            + [ReadCreate(newId)]),
                         newId, DtoOf(rec), ttl, faults)
    ensures ValidStore(CreateUserEffect(s, email, name, newId, now, ttl, faults).0)
  {
    assert PublishCalls(events) == [Publish("user_registered", IdPayload("user_id", newId))];
    CreateEffectOk(s, email, name, newId, now, ttl, faults, rec);
    CreatePreservesValid(s, email, name, newId, now, ttl, faults);
  }

  /** A successful `create_user` leaves the new user stored under its id with
      the address given, in a valid store, and has published its registration. */
  lemma CreateRegisters(s: UserStore, email: string, name: string, newId: Uuid, now: Timestamp,
                        ttl: int, faults: Faults)
    requires ValidStore(s) && FreshId(s, newId)
    requires CreateUserEffect(s, email, name, newId, now, ttl, faults).1.Ok?
    ensures var s' := CreateUserEffect(s, email, name, newId, now, ttl, faults).0;
            && RowsValid(s'.users) && newId in s'.users && s'.users[newId].email == email
            && Publish("user_registered", IdPayload("user_id", newId)) in s'.log
  {
    var s' := CreateUserEffect(s, email, name, newId, now, ttl, faults).0;
    assert RowsValid(s'.users) by {
      CreatePreservesValid(s, email, name, newId, now, ttl, faults);
    }
    CreateSpec(s, email, name, newId, now, ttl, faults);
    assert s'.log[|s.log| + 2] == Publish("user_registered", IdPayload("user_id", newId));
  }

  /** `create_user`: an invalid address changes nothing; a taken address and a
      blank name only cost the lookup; otherwise the row is written, the
      registration published, and the new user is active with the stripped name. */
  lemma CreateSpec(s: UserStore, email: string, name: string, newId: Uuid, now: Timestamp, ttl: int, faults: Faults)
    ensures var (s', r) := CreateUserEffect(s, email, name, newId, now, ttl, faults);
            && (!RegexMatches(email) ==> s' == s && r.Err? && r.error.ValueError?)
            && (RegexMatches(email) && EmailTaken(s.users, email) ==>
                  r == Err(UserEmailAlreadyExists) && s' == s.(log := s.log + [RepoGetByEmail(email)]))
            && (RegexMatches(email) && !EmailTaken(s.users, email) && IsBlank(name) ==>
                  r == Err(InvalidUserData) && s' == s.(log := s.log + [RepoGetByEmail(email)]))
            && (RegexMatches(email) && !EmailTaken(s.users, email) && !IsBlank(name) ==>
                  s'.users == s.users[newId := UserRow(newId, email, Strip(name), "true", now, now)]
                  && (r.Ok? <==> !faults.cacheDown)
                  && (r.Ok? ==> r.value == UserDto(newId, email, Strip(name), true, now, now))
                  && s'.log == s.log + [RepoGetByEmail(email), RepoAdd(newId),
                                        Publish("user_registered", IdPayload("user_id", newId)),
                                        ReadCreate(newId), CacheSet(newId, ttl)])
  {
    if RegexMatches(email) && !EmailTaken(s.users, email) && !IsBlank(name) {
      var rec := NewUserRecord(newId, NewEmailAsWritten(email).value, name, now).value;
      CreateEffectOk(s, email, name, newId, now, ttl, faults, rec);
      AppendFive(s.log, RepoGetByEmail(email), RepoAdd(newId), Publish("user_registered", IdPayload("user_id", newId)),
                 ReadCreate(newId), CacheSet(newId, ttl));
    }
  }

  /** A cache failure at the end of `create_user` makes the call raise although
      the user is stored and its registration published. */
  lemma CacheFailureAfterCommit(s: UserStore, email: string, name: string, newId: Uuid, now: Timestamp,
                                ttl: int, readModelDown: bool)
    requires RegexMatches(email) && !EmailTaken(s.users, email) && !IsBlank(name)
    ensures var (s', r) := CreateUserEffect(s, email, name, newId, now, ttl, Faults(readModelDown, true));
            r == Err(CacheUnavailable) && newId in s'.users
            && Publish("user_registered", IdPayload("user_id", newId)) in s'.log
  {
    CreateSpec(s, email, name, newId, now, ttl, Faults(readModelDown, true));
    var s' := CreateUserEffect(s, email, name, newId, now, ttl, Faults(readModelDown, true)).0;
    assert s'.log[|s.log| + 2] == Publish("user_registered", IdPayload("user_id", newId));
  }

  /** An address with a final newline passes `Email` as written, so
      `create_user` stores it, newline included; the corrected check refuses it. */
  lemma CreateStoresTrailingNewline(s: UserStore, e: string, name: string, newId: Uuid, now: Timestamp,
                                    ttl: int, faults: Faults)
    requires AddressForm(e) && !EmailTaken(s.users, e + "\n") && !IsBlank(name)
    ensures var (s', r) := CreateUserEffect(s, e + "\n", name, newId, now, ttl, faults);
            && newId in s'.users && s'.users[newId].email == e + "\n"
            && (r.Ok? <==> !faults.cacheDown)
            && NewEmail(e + "\n").Err?
  {
    TrailingNewlineAccepted(e);
    CreateSpec(s, e + "\n", name, newId, now, ttl, faults);
  }

  /** Read your writes: after a successful `create_user`, `get_user` answers
      from the cache with the returned user. */
  lemma CreateThenGet(s: UserStore, email: string, name: string, newId: Uuid, now: Timestamp,
                      ttl: int, faults: Faults, later: Faults)
    requires CreateUserEffect(s, email, name, newId, now, ttl, faults).1.Ok?
    requires !later.cacheDown
    ensures var (s', r) := CreateUserEffect(s, email, name, newId, now, ttl, faults);
            GetUserEffect(s', newId, ttl, later) == (s'.(log := s'.log + [CacheGet(newId)]), Ok(Some(r.value)))
  {
    var rec := NewUserRecord(newId, NewEmailAsWritten(email).value, name, now).value;
    CreateEffectOk(s, email, name, newId, now, ttl, faults, rec);
    DocRoundTrip(DtoOf(rec));
  }

  /** Re-submitting the current address skips the uniqueness lookup, so it
      cannot conflict; `update_email` still runs and records its event. */
  lemma EmailStepOwnAddress(s: UserStore, rec: UserRecord, events: seq<DomainEvent>, now: Timestamp,
                            ttl: int, faults: Faults)
    requires RegexMatches(rec.email.value)
    ensures EmailStep(s, rec, events, Some(rec.email.value), now, ttl, faults)
            == SaveEffect(s, rec.(updatedAt := now), events + [UserEvent("user_email_updated", rec.id, now)], ttl, faults)
  {
  }

  /** `update_user` with only the user's own address: one load and no
      `get_by_email`, then the save; only a cache failure can make it raise. */
  lemma UpdateOwnEmail(s: UserStore, id: Uuid, now: Timestamp, ttl: int, faults: Faults)
    requires id in s.users && ValidRow(id, s.users[id])
    ensures var (s', r) := UpdateUserEffect(s, id, None, Some(s.users[id].email), now, ttl, faults);
            && (r.Ok? <==> !faults.cacheDown)
            && (r.Err? ==> r == Err(CacheUnavailable))
            && s'.log == s.log + [RepoGetById(id), RepoUpdate(id)]
                         + PublishCalls([UserEvent("user_email_updated", id, now)])
                         + [ReadUpdate(id), CacheSet(id, ttl)]
  {
    RowLoads(id, s.users[id]);
    var rec := EntityOf(s.users[id]).value;
    var loaded := s.(log := s.log + [RepoGetById(id)]);
    var ev := UserEvent("user_email_updated", id, now);
    assert s.users[id].email == rec.email.value;
    assert RenameStep(rec, None, now) == Ok((rec, []));
    assert UpdateUserEffect(s, id, None, Some(s.users[id].email), now, ttl, faults)
        == EmailStep(loaded, rec, [], Some(rec.email.value), now, ttl, faults);
    EmailStepOwnAddress(loaded, rec, [], now, ttl, faults);
    var res := SaveEffect(loaded, rec.(updatedAt := now), [] + [ev], ttl, faults);
    assert [] + [ev] == [ev];
    assert res.0.log == loaded.log + [RepoUpdate(id)] + PublishCalls([ev]) + [ReadUpdate(id)] + [CacheSet(id, ttl)];
    assert loaded.log + [RepoUpdate(id)] == s.log + [RepoGetById(id), RepoUpdate(id)];
  }

  /** `update_user` refuses an address another user has, and writes nothing. */
  lemma UpdateRejectsTakenEmail(s: UserStore, id: Uuid, name: Option<string>, e: string, now: Timestamp,
                                ttl: int, faults: Faults, other: Uuid)
    requires ValidStore(s) && id in s.users && other in s.users && other != id && s.users[other].email == e
    requires RenameStep(EntityOf(s.users[id]).value, name, now).Ok? || !(name.Some? && name.value != "")
    ensures var (s', r) := UpdateUserEffect(s, id, name, Some(e), now, ttl, faults);
            r == Err(UserEmailAlreadyExists) && s'.users == s.users && s'.readModel == s.readModel && s'.cache == s.cache
  {
    RowLoads(id, s.users[id]);
    RowLoads(other, s.users[other]);
    assert EmailTaken(s.users, e);
  }

  /** The tail of `update_user` on a loaded user: the address, when given and
      valid and not another user's, replaces the current one; the row is then
      rewritten and the DTO returned unless the cache write fails. */
  lemma EmailStepSpec(s: UserStore, rec: UserRecord, events: seq<DomainEvent>, email: Option<string>,
                      now: Timestamp, ttl: int, faults: Faults)
    requires rec.id in s.users && s.users[rec.id].id == rec.id && s.users[rec.id].createdAt == rec.createdAt
    ensures var (s', r) := EmailStep(s, rec, events, email, now, ttl, faults);
            var moved := email.Some? && email.value != "";
            var rec' := if moved then rec.(email := Email(email.value), updatedAt := now) else rec;
            && (moved && !RegexMatches(email.value) ==> r.Err? && r.error.ValueError? && s'.users == s.users)
            && (r.Ok? || r == Err(CacheUnavailable) ==> s'.users == s.users[rec.id := RowOf(rec')])
            && (r.Ok? ==> r.value == DtoOf(rec'))
  {
    var moved := email.Some? && email.value != "";
    if !moved {
      UpdateUserRowSpec(s.users, rec);
    } else if NewEmailAsWritten(email.value).Ok? {
      var rec' := rec.(email := Email(email.value), updatedAt := now);
      UpdateUserRowSpec(s.users, rec');
    }
  }

  /** The stored row after a successful `update_user`: the stripped new name
      when one is given, the new address when one is given, the rest kept, and
      the time of the update when anything was given. */
  function RowAfterUpdate(row: UserRow, name: Option<string>, email: Option<string>, now: Timestamp): UserRow {
    var given := name.Some? && name.value != "";
    var moved := email.Some? && email.value != "";
    UserRow(row.id, if moved then email.value else row.email, if given then Strip(name.value) else row.name,
            row.isActive, row.createdAt, if given || moved then now else row.updatedAt)
  }

  /** `update_user`: an unknown id raises `UserNotFoundError`; a blank new name
      raises and writes nothing; a successful update stores the stripped new
      name when one is given and the new address when one is given, and keeps
      the rest. */
  lemma UpdateSpec(s: UserStore, id: Uuid, name: Option<string>, email: Option<string>, now: Timestamp,
                   ttl: int, faults: Faults)
    requires ValidStore(s)
    ensures var (s', r) := UpdateUserEffect(s, id, name, email, now, ttl, faults);
            var given := name.Some? && name.value != "";
            var moved := email.Some? && email.value != "";
            && (id !in s.users ==> r == Err(UserNotFound) && s' == s.(log := s.log + [RepoGetById(id)]))
            && (id in s.users && given && IsBlank(name.value) ==> r == Err(InvalidUserData) && s'.users == s.users)
            && (id in s.users && (r.Ok? || r == Err(CacheUnavailable)) ==>
                  s'.users == s.users[id := RowAfterUpdate(s.users[id], name, email, now)]
                  && (r.Ok? ==> r.value.id == id && r.value.email == s'.users[id].email
                                && r.value.name == s'.users[id].name))
  {
    if id in s.users {
      UpdateLoaded(s, id, name, email, now, ttl, faults);
    }
  }

  /** `UpdateSpec` for a stored user. */
  lemma UpdateLoaded(s: UserStore, id: Uuid, name: Option<string>, email: Option<string>, now: Timestamp,
                     ttl: int, faults: Faults)
    requires id in s.users && ValidRow(id, s.users[id])
    ensures var (s', r) := UpdateUserEffect(s, id, name, email, now, ttl, faults);
            var given := name.Some? && name.value != "";
            var moved := email.Some? && email.value != "";
            && (given && IsBlank(name.value) ==> r == Err(InvalidUserData) && s'.users == s.users)
            && (r.Ok? || r == Err(CacheUnavailable) ==>
                  s'.users == s.users[id := RowAfterUpdate(s.users[id], name, email, now)]
                  && (r.Ok? ==> r.value.id == id && r.value.email == s'.users[id].email
                                && r.value.name == s'.users[id].name))
  {
    RowLoads(id, s.users[id]);
    var rec0 := EntityOf(s.users[id]).value;
    if RenameStep(rec0, name, now).Ok? {
      var (rec1, events) := RenameStep(rec0, name, now).value;
      EmailStepSpec(s.(log := s.log + [RepoGetById(id)]), rec1, events, email, now, ttl, faults);
    }
  }

  /** After a `delete_user` with every port up, `get_user` finds nothing. */
  lemma DeleteThenGone(s: UserStore, id: Uuid, ttl: int, later: Faults)
    requires ValidStore(s) && DeleteUserEffect(s, id, Faults(false, false)).1.Pass?
    requires !later.cacheDown && !later.readModelDown
    ensures var s' := DeleteUserEffect(s, id, Faults(false, false)).0;
            id !in s'.users && GetUserEffect(s', id, ttl, later).1 == Ok(None)
  {
    DeleteOneSpec(s.readModel, DocKey, UuidText(id), "");
  }

  /** When the read model is down during `delete_user`, its failure is
      swallowed and the deleted user is still returned by `get_user`. */
  lemma StaleReadAfterDelete(s: UserStore, id: Uuid, ttl: int, d: UserDto)
    requires ValidStore(s) && id in s.users && FindOne(s.readModel, DocKey, UuidText(id)) == Some(ToDoc(d))
    ensures var (s', o) := DeleteUserEffect(s, id, Faults(true, false));
            o == Pass && id !in s'.users
            && GetUserEffect(s', id, ttl, Faults(false, false)).1 == Ok(Some(d))
  {
    RowLoads(id, s.users[id]);
    DocRoundTrip(d);
  }

  /** `activate_user` and `deactivate_user` leave the read model as it was, so
      a search still sees the old flag. */
  lemma SetActiveSkipsReadModel(s: UserStore, id: Uuid, active: bool, now: Timestamp, ttl: int, faults: Faults)
    ensures SetActiveEffect(s, id, active, now, ttl, faults).0.readModel == s.readModel
  {
  }

  /** After `activate_user` (`deactivate_user`) on a stored user, whatever the
      faults, the stored flag is "true" ("false"). */
  lemma SetActiveSets(s: UserStore, id: Uuid, active: bool, now: Timestamp, ttl: int, faults: Faults)
    requires ValidStore(s) && id in s.users
    ensures var s' := SetActiveEffect(s, id, active, now, ttl, faults).0;
            id in s'.users && s'.users[id].isActive == ActiveText(active)
  {
    SetActiveLoaded(s, id, active, now, ttl, faults);
    RowLoads(id, s.users[id]);
  }

  /** On a user already in the requested state, the call rewrites the same
      row and publishes nothing: with `SetActiveSets`, the operations are
      idempotent. */
  lemma SetActiveIdempotent(s: UserStore, id: Uuid, active: bool, now: Timestamp, ttl: int, faults: Faults)
    requires ValidStore(s) && id in s.users && s.users[id].isActive == ActiveText(active)
    ensures var s' := SetActiveEffect(s, id, active, now, ttl, faults).0;
            s'.users == s.users && s'.log == s.log + [RepoGetById(id), RepoUpdate(id), CacheSet(id, ttl)]
  {
    SetActiveLoaded(s, id, active, now, ttl, faults);
    RowLoads(id, s.users[id]);
    var rec := EntityOf(s.users[id]).value;
    assert Toggle(rec, active, now) == (rec, []);
    assert s.users[id := RowOf(rec)] == s.users;
    assert s.log + [RepoGetById(id), RepoUpdate(id)] + PublishCalls([]) + [CacheSet(id, ttl)]
           == s.log + [RepoGetById(id), RepoUpdate(id), CacheSet(id, ttl)];
  }

  /** `get_user` tries the cache, then the read model, then the write store,
      and stops at the first hit. It never writes the write store or the read
      model: a read-model hit is copied into the cache as it is, a write-store
      hit is cached but not mirrored into the read model, and a miss everywhere
      is `None` with nothing written. */
  lemma GetUserSpec(s: UserStore, id: Uuid, ttl: int, faults: Faults)
    requires ValidStore(s)
    ensures var (s', r) := GetUserEffect(s, id, ttl, faults);
            var doc := FindOne(s.readModel, DocKey, UuidText(id));
            var below := !faults.cacheDown && id !in s.cache && !faults.readModelDown;
            && s'.users == s.users && s'.readModel == s.readModel
            && (faults.cacheDown ==> r == Err(CacheUnavailable) && s' == s.(log := s.log + [CacheGet(id)]))
            && (!faults.cacheDown && id in s.cache ==>
                  r == Ok(Some(FromDoc(s.cache[id]).value)) && r.value.value.id == id
                  && s' == s.(log := s.log + [CacheGet(id)]))
            && (!faults.cacheDown && id !in s.cache && faults.readModelDown ==>
                  r == Err(ReadModelUnavailable) && s' == s.(log := s.log + [CacheGet(id), ReadGetById(id)]))
            && (below && doc.Some? ==>
                  FromDoc(doc.value).Ok? && r == Ok(Some(FromDoc(doc.value).value)) && r.value.value.id == id
                  && s'.cache == s.cache[id := doc.value]
                  && s'.log == s.log + [CacheGet(id), ReadGetById(id), CacheSet(id, ttl)])
            && (below && doc.None? && id in s.users ==>
                  r == Ok(Some(DtoOf(EntityOf(s.users[id]).value)))
                  && s'.cache == s.cache[id := ToDoc(DtoOf(EntityOf(s.users[id]).value))]
                  && s'.log == s.log + [CacheGet(id), ReadGetById(id), RepoGetById(id), CacheSet(id, ttl)])
            && (below && doc.None? && id !in s.users ==>
                  r == Ok(None) && s' == s.(log := s.log + [CacheGet(id), ReadGetById(id), RepoGetById(id)]))
  {
    if !faults.cacheDown && id !in s.cache && !faults.readModelDown {
      var doc := FindOne(s.readModel, DocKey, UuidText(id));
      if doc.Some? {
        var j := FirstMatch(s.readModel, DocKey, UuidText(id)).value;
        assert doc.value == s.readModel[j] && Canonical(doc.value);
        UuidTextRoundTrip(id);
        AppendThree(s.log, CacheGet(id), ReadGetById(id), CacheSet(id, ttl));
      } else if id in s.users {
        RowLoads(id, s.users[id]);
        assert s.log + [CacheGet(id)] + [ReadGetById(id)] + [RepoGetById(id)] + [CacheSet(id, ttl)]
               == s.log + [CacheGet(id), ReadGetById(id), RepoGetById(id), CacheSet(id, ttl)];
      } else {
        AppendThree(s.log, CacheGet(id), ReadGetById(id), RepoGetById(id));
      }
    }
  }

  /** `get_user_by_email`: a malformed address raises before any call;
      otherwise one lookup, answered with the one user stored under the
      address, or `None`. */
  lemma GetUserByEmailSpec(s: UserStore, email: string)
    requires ValidStore(s)
    ensures var (s', r) := GetUserByEmailEffect(s, email);
            && (!RegexMatches(email) ==> s' == s && r.Err? && r.error.ValueError?)
            && (RegexMatches(email) ==>
                  s' == s.(log := s.log + [RepoGetByEmail(email)])
                  && (r == Ok(None) <==> !EmailTaken(s.users, email))
                  && (forall k :: k in s.users && s.users[k].email == email ==>
                        r == Ok(Some(DtoOf(EntityOf(s.users[k]).value)))))
  {
    if RegexMatches(email) && EmailTaken(s.users, email) {
      var k :| k in s.users && s.users[k].email == email;
      RowLoads(k, s.users[k]);
    }
  }

  /** `search_users` returns at most 100 users, each one from a document whose
      address contains the query, ignoring case; with no query it asks nothing. */
  lemma SearchSpec(s: UserStore, email: Option<string>, faults: Faults)
    requires ValidStore(s)
    ensures var (s', r) := SearchEffect(s, email, faults);
            && (!(email.Some? && email.value != "") ==> s' == s && r == Ok([]))
            && (r.Ok? ==> |r.value| <= SearchLimit)
            && (r.Ok? && email.Some? ==>
                  forall i :: 0 <= i < |r.value| ==>
                    exists doc :: doc in s.readModel && EmailMatches(doc, email.value) && FromDoc(doc) == Ok(r.value[i]))
            && (email.Some? && email.value != "" && !faults.readModelDown ==> r.Ok?)
  {
    if email.Some? && email.value != "" {
      var hits := SearchDocs(s.readModel, email.value);
      SearchDocsSpec(s.readModel, email.value);
      if !faults.readModelDown {
        var r := DocsToDtos(hits);
        forall i | 0 <= i < |r.value|
          ensures exists doc :: doc in s.readModel && EmailMatches(doc, email.value) && FromDoc(doc) == Ok(r.value[i])
        {
          assert hits[i] in s.readModel && FromDoc(hits[i]) == Ok(r.value[i]);
        }
      }
    }
  }

  // ---------------------------------------------------------------------
  // The service

  class UserApplicationService {
    var users: map<Uuid, UserRow>
    var readModel: seq<UserDoc>
    var cache: map<Uuid, UserDoc>
    var log: seq<PortCall>
    const cacheTtl: int

    function State(): UserStore
      reads this
    {
      UserStore(users, readModel, cache, log)
    }

    ghost predicate Valid()
      reads this
    {
      ValidStore(State())
    }

    /** A service over empty stores; `cache_ttl` defaults to 3600 seconds. */
    constructor (cacheTtl: int)
      ensures Valid() && State() == UserStore(map[], [], map[], []) && this.cacheTtl == cacheTtl
    {
      this.cacheTtl := cacheTtl;
      users := map[];
      readModel := [];
      cache := map[];
      log := [];
    }

    /** `UserRepository.get_by_id`: a fresh aggregate rebuilt from the row. */
    method LoadUser(id: Uuid) returns (u: User?)
      requires Valid()
      modifies this`log
      ensures log == old(log) + [RepoGetById(id)]
      ensures u == null <==> id !in users
      ensures u != null ==> fresh(u) && EntityOf(users[id]) == Ok(u.Record()) && u.events == []
                            && ValidUser(u.Record()) && u.id == id
    {
      log := log + [RepoGetById(id)];
      if id !in users {
        return null;
      }
      RowLoads(id, users[id]);
      u := new User(EntityOf(users[id]).value);
    }

    /** The unguarded `self._cache.set(...)`. */
    method CacheDto(id: Uuid, dto: UserDto, faults: Faults) returns (r: Result<UserDto>)
      modifies this`cache, this`log
      ensures (State(), r) == CacheStep(old(State()), id, dto, cacheTtl, faults)
    {
      log := log + [CacheSet(id, cacheTtl)];
      if faults.cacheDown {
        return Err(CacheUnavailable);
      }
      cache := cache[id := ToDoc(dto)];
      r := Ok(dto);
    }

    /** The shared tail of `update_user`. */
    method Persist(u: User, faults: Faults) returns (r: Result<UserDto>)
      modifies this, u`events
      ensures (State(), r) == SaveEffect(old(State()), old(u.Record()), old(u.events), cacheTtl, faults)
    {
      ghost var s0 := State();
      ghost var buffered := u.events;
      users := UpdateUserRow(users, u.Record());
      log := log + [RepoUpdate(u.id)];
      var events := u.GetDomainEvents();
      var calls := PublishEach(events);
      log := log + calls;
      assert calls == PublishCalls(buffered);
      var dto := DtoOf(u.Record());
      log := log + [ReadUpdate(u.id)];
      if !faults.readModelDown {
        readModel := UpsertDoc(readModel, DocKey, UuidText(u.id), ToDoc(dto));
      }
      r := CacheDto(u.id, dto, faults);
    }

    /** The tail of `create_user`: `add`, publish, `_to_dto`, the guarded
        read-model `create` and the cache write. */
    method Register(u: User, faults: Faults) returns (r: Result<UserDto>)
      modifies this, u`events
      ensures u.Record() == old(u.Record())
      ensures (State(), r)
              == CacheStep(UserStore(old(users)[u.id := RowOf(u.Record())],
                                     if faults.readModelDown then old(readModel) else old(readModel) + [ToDoc(DtoOf(u.Record()))],
                                     old(cache), old(log) + [RepoAdd(u.id)] + PublishCalls(old(u.events)) + [ReadCreate(u.id)]),
                           u.id, DtoOf(u.Record()), cacheTtl, faults)
    {
      users := users[u.id := RowOf(u.Record())];
      log := log + [RepoAdd(u.id)];
      var events := u.GetDomainEvents();
      var calls := PublishEach(events);
      log := log + calls;
      var dto := DtoOf(u.Record());
      log := log + [ReadCreate(u.id)];
      if !faults.readModelDown {
        readModel := readModel + [ToDoc(dto)];
      }
      r := CacheDto(u.id, dto, faults);
    }

    method CreateUser(email: string, name: string, newId: Uuid, now: Timestamp, faults: Faults)
      returns (r: Result<UserDto>)
      requires Valid() && FreshId(State(), newId)
      modifies this
      ensures Valid()
      ensures (State(), r) == CreateUserEffect(old(State()), email, name, newId, now, cacheTtl, faults)
    {
      ghost var s0 := State();
      var em := NewEmailAsWritten(email);
      if em.Err? {
        return Err(em.error);
      }
      log := log + [RepoGetByEmail(email)];
      var taken := EmailTaken(users, email);
      if taken {
        return Err(UserEmailAlreadyExists);
      }
      var created := User.Create(newId, em.value, name, now);
      if created.Err? {
        return Err(created.error);
      }
      var u := created.value;
      ghost var want := CreateUserEffect(s0, email, name, newId, now, cacheTtl, faults);
      CreateUserOk(s0, email, name, newId, now, cacheTtl, faults, u.Record(), u.events);
      r := Register(u, faults);
      assert (State(), r) == want;
    }

    method GetUser(id: Uuid, faults: Faults) returns (r: Result<Option<UserDto>>)
      requires Valid()
      modifies this`cache, this`log
      ensures Valid()
      ensures (State(), r) == GetUserEffect(old(State()), id, cacheTtl, faults)
    {
      ghost var s0 := State();
      GetUserPreservesValid(s0, id, cacheTtl, faults);
      log := log + [CacheGet(id)];
      if faults.cacheDown {
        return Err(CacheUnavailable);
      }
      if id in cache {
        r := match FromDoc(cache[id]) case Err(e) => Err(e) case Ok(d) => Ok(Some(d));
        return;
      }
      log := log + [ReadGetById(id)];
      if faults.readModelDown {
        return Err(ReadModelUnavailable);
      }
      var hit := FindOne(readModel, DocKey, UuidText(id));
      if hit.Some? {
        var d := FromDoc(hit.value);
        if d.Ok? {
          cache := cache[id := ToDoc(d.value)];
          log := log + [CacheSet(id, cacheTtl)];
        }
        r := match d case Err(e) => Err(e) case Ok(v) => Ok(Some(v));
        return;
      }
      var u := LoadUser(id);
      if u == null {
        return Ok(None);
      }
      var dto := DtoOf(u.Record());
      cache := cache[id := ToDoc(dto)];
      log := log + [CacheSet(id, cacheTtl)];
      r := Ok(Some(dto));
    }

    method GetUserByEmail(email: string) returns (r: Result<Option<UserDto>>)
      requires Valid()
      modifies this`log
      ensures Valid()
      ensures (State(), r) == GetUserByEmailEffect(old(State()), email)
    {
      var em := NewEmailAsWritten(email);
      if em.Err? {
        return Err(em.error);
      }
      log := log + [RepoGetByEmail(email)];
      var taken := exists k :: k in users && users[k].email == email;
      if !taken {
        return Ok(None);
      }
      var k :| k in users && users[k].email == email;
      RowLoads(k, users[k]);
      r := Ok(Some(DtoOf(EntityOf(users[k]).value)));
    }

    /** `if command.email:` through the end of `update_user`. */
    method ApplyEmail(u: User, email: Option<string>, now: Timestamp, faults: Faults) returns (r: Result<UserDto>)
      modifies this, u
      ensures (State(), r) == EmailStep(old(State()), old(u.Record()), old(u.events), email, now, cacheTtl, faults)
    {
      if email.Some? && email.value != "" {
        var em := NewEmailAsWritten(email.value);
        if em.Err? {
          return Err(em.error);
        }
        if u.email != em.value {
          log := log + [RepoGetByEmail(email.value)];
          var taken := exists k :: k in users && users[k].email == email.value;
          if taken {
            return Err(UserEmailAlreadyExists);
          }
        }
        u.UpdateEmail(em.value, now);
      }
      r := Persist(u, faults);
    }

    method UpdateUser(id: Uuid, name: Option<string>, email: Option<string>, now: Timestamp, faults: Faults)
      returns (r: Result<UserDto>)
      requires Valid()
      modifies this
      ensures Valid()
      ensures (State(), r) == UpdateUserEffect(old(State()), id, name, email, now, cacheTtl, faults)
    {
      ghost var s0 := State();
      var u := LoadUser(id);
      if u == null {
        return Err(UserNotFound);
      }
      ghost var loaded := State();
      ghost var rec0 := u.Record();
      assert EntityOf(s0.users[id]) == Ok(rec0);
      assert u.events == [];
      if name.Some? && name.value != "" {
        var o := u.UpdateName(name.value, now);
        if o.Fail? {
          assert RenameStep(rec0, name, now) == Err(InvalidUserData);
          return Err(o.error);
        }
        assert u.Record() == RenamedRecord(rec0, name.value, now).value;
        assert u.events == [UserEvent("user_name_updated", rec0.id, now)];
      }
      ghost var renamed := RenameStep(rec0, name, now);
      assert renamed == Ok((u.Record(), u.events));
      r := ApplyEmail(u, email, now, faults);
      assert UpdateUserEffect(s0, id, name, email, now, cacheTtl, faults)
             == EmailStep(loaded, renamed.value.0, renamed.value.1, email, now, cacheTtl, faults);
      UpdatePreservesValid(s0, id, name, email, now, cacheTtl, faults);
    }

    method DeleteUser(id: Uuid, faults: Faults) returns (o: Outcome)
      requires Valid()
      modifies this
      ensures Valid()
      ensures (State(), o) == DeleteUserEffect(old(State()), id, faults)
    {
      ghost var s0 := State();
      DeletePreservesValid(s0, id, faults);
      var u := LoadUser(id);
      if u == null {
        return Fail(UserNotFound);
      }
      users := users - {id};
      log := log + [RepoDelete(id), ReadDelete(id)];
      if !faults.readModelDown {
        readModel := DeleteOne(readModel, DocKey, UuidText(id));
      }
      log := log + [CacheDelete(id)];
      if faults.cacheDown {
        return Fail(CacheUnavailable);
      }
      cache := cache - {id};
      o := Pass;
    }

    /** The shared tail of `activate_user` and `deactivate_user`. */
    method Store(u: User, faults: Faults) returns (r: Result<UserDto>)
      modifies this, u`events
      ensures (State(), r) == StoreEffect(old(State()), old(u.Record()), old(u.events), cacheTtl, faults)
    {
      ghost var buffered := u.events;
      users := UpdateUserRow(users, u.Record());
      log := log + [RepoUpdate(u.id)];
      var events := u.GetDomainEvents();
      var calls := PublishEach(events);
      log := log + calls;
      assert calls == PublishCalls(buffered);
      r := CacheDto(u.id, DtoOf(u.Record()), faults);
    }

    method ActivateUser(id: Uuid, now: Timestamp, faults: Faults) returns (r: Result<UserDto>)
      requires Valid()
      modifies this
      ensures Valid()
      ensures (State(), r) == SetActiveEffect(old(State()), id, true, now, cacheTtl, faults)
    {
      ghost var s0 := State();
      var u := LoadUser(id);
      if u == null {
        return Err(UserNotFound);
      }
      ghost var rec0 := u.Record();
      assert EntityOf(s0.users[id]) == Ok(rec0);
      ghost var before := u.events;
      assert before == [];
      u.Activate(now);
      if rec0.isActive == true {
        assert u.Record() == rec0 && u.events == [];
      } else {
        assert u.Record() == rec0.(isActive := true, updatedAt := now);
        assert u.events == [UserEvent("user_activated", rec0.id, now)];
      }
      assert Toggle(rec0, true, now) == (u.Record(), u.events);
      r := Store(u, faults);
      SetActivePreservesValid(s0, id, true, now, cacheTtl, faults);
    }

    method DeactivateUser(id: Uuid, now: Timestamp, faults: Faults) returns (r: Result<UserDto>)
      requires Valid()
      modifies this
      ensures Valid()
      ensures (State(), r) == SetActiveEffect(old(State()), id, false, now, cacheTtl, faults)
    {
      ghost var s0 := State();
      var u := LoadUser(id);
      if u == null {
        return Err(UserNotFound);
      }
      ghost var rec0 := u.Record();
      assert EntityOf(s0.users[id]) == Ok(rec0);
      ghost var before := u.events;
      assert before == [];
      u.Deactivate(now);
      if rec0.isActive == false {
        assert u.Record() == rec0 && u.events == [];
      } else {
        assert u.Record() == rec0.(isActive := false, updatedAt := now);
        assert u.events == [UserEvent("user_deactivated", rec0.id, now)];
      }
      assert Toggle(rec0, false, now) == (u.Record(), u.events);
      r := Store(u, faults);
      SetActivePreservesValid(s0, id, false, now, cacheTtl, faults);
    }

    method SearchUsers(email: Option<string>, faults: Faults) returns (r: Result<seq<UserDto>>)
      modifies this`log
      ensures (State(), r) == SearchEffect(old(State()), email, faults)
    {
      if !(email.Some? && email.value != "") {
        return Ok([]);
      }
      log := log + [ReadSearch(email.value)];
      if faults.readModelDown {
        return Err(ReadModelUnavailable);
      }
      r := DocsToDtos(SearchDocs(readModel, email.value));
    }
  }
}
