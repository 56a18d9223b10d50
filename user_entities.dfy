/**
 * The User aggregate (src/domain/users/entities.py): a mutable dataclass whose
 * methods reassign `name`, `email`, `is_active` and `updated_at` and append to
 * an event buffer. Each method is stated against `UserRecord`, the value of the
 * user without its buffer, which is also the row the write store keeps.
 */
module UserEntities {
  import opened Common
  import opened Text
  import opened Events
  import opened UserValues

  datatype UserRecord = UserRecord(
    id: Uuid, email: Email, name: string, isActive: bool,
    createdAt: Timestamp, updatedAt: Timestamp)

  /** Every user the aggregate's factory and methods produce has a non-blank name. */
  predicate ValidUser(r: UserRecord) {
    !IsBlank(r.name)
  }

  /** `{"user_id": str(self.id)}` recorded under `eventType`. */
  function UserEvent(eventType: string, id: Uuid, now: Timestamp): DomainEvent {
    DomainEvent(eventType, IdPayload("user_id", id), now)
  }

  /** `User.create` on values: a blank name raises; otherwise the stripped name,
      active, both timestamps `now`. */
  function NewUserRecord(id: Uuid, email: Email, name: string, now: Timestamp): (r: Result<UserRecord>)
    ensures r.Ok? <==> !IsBlank(name)
    ensures r.Err? ==> r.error == InvalidUserData
    ensures r.Ok? ==> r.value.id == id && r.value.email == email && r.value.isActive
                      && r.value.name == Strip(name) && ValidUser(r.value)
                      && r.value.createdAt == now && r.value.updatedAt == now
  {
    var stripped := Strip(name);
    StripEmptyIffBlank(name);
    if name == [] || stripped == [] then Err(InvalidUserData)
    else
      StripOfNonBlank(name);
      Ok(UserRecord(id, email, stripped, true, now, now))
  }

  /** `update_name` on values: a blank name raises, otherwise the stripped name. */
  function RenamedRecord(r: UserRecord, newName: string, now: Timestamp): (s: Result<UserRecord>)
    ensures s.Ok? <==> !IsBlank(newName)
    ensures s.Err? ==> s.error == InvalidUserData
    ensures s.Ok? ==> s.value == r.(name := Strip(newName), updatedAt := now) && ValidUser(s.value)
  {
    var stripped := Strip(newName);
    StripEmptyIffBlank(newName);
    if newName == [] || stripped == [] then Err(InvalidUserData)
    else
      StripOfNonBlank(newName);
      Ok(r.(name := stripped, updatedAt := now))
  }

  /** Renaming twice with the same name leaves what renaming once left, apart
      from the timestamp: stripping is idempotent. */
  lemma RenameIdempotent(r: UserRecord, newName: string, t1: Timestamp, t2: Timestamp)
    requires !IsBlank(newName)
    ensures RenamedRecord(RenamedRecord(r, newName, t1).value, Strip(newName), t2)
            == RenamedRecord(r, newName, t2)
  {
    StripOfNonBlank(newName);
    StripIdempotent(newName);
  }

  class User {
    const id: Uuid
    var email: Email
    var name: string
    var isActive: bool
    const createdAt: Timestamp
    var updatedAt: Timestamp
    var events: seq<DomainEvent>

    function Record(): UserRecord
      reads this
    {
      UserRecord(id, email, name, isActive, createdAt, updatedAt)
    }

    /** The dataclass constructor: no validation, an empty event buffer. */
    constructor (rec: UserRecord)
      ensures Record() == rec && events == []
    {
      id := rec.id;
      email := rec.email;
      name := rec.name;
      isActive := rec.isActive;
      createdAt := rec.createdAt;
      updatedAt := rec.updatedAt;
      events := [];
    }

    /** `User.create`: one `user_registered` event on success. */
    static method Create(id: Uuid, email: Email, name: string, now: Timestamp) returns (r: Result<User>)
      ensures r.Ok? <==> NewUserRecord(id, email, name, now).Ok?
      ensures r.Err? ==> r.error == InvalidUserData
      ensures r.Ok? ==> fresh(r.value) && r.value.Record() == NewUserRecord(id, email, name, now).value
                        && r.value.events == [UserEvent("user_registered", id, now)]
    {
      var rec := NewUserRecord(id, email, name, now);
      if rec.Err? {
        return Err(rec.error);
      }
      var u := new User(rec.value);
      u.events := u.events + [UserEvent("user_registered", id, now)];
      return Ok(u);
    }

    /** `update_name`: a blank name raises and changes nothing. */
    method UpdateName(newName: string, now: Timestamp) returns (o: Outcome)
      modifies this
      ensures o.Pass? <==> RenamedRecord(old(Record()), newName, now).Ok?
      ensures o.Fail? ==> o.error == InvalidUserData && Record() == old(Record()) && events == old(events)
      ensures o.Pass? ==> Record() == RenamedRecord(old(Record()), newName, now).value
                          && events == old(events) + [UserEvent("user_name_updated", id, now)]
    {
      var renamed := RenamedRecord(Record(), newName, now);
      if renamed.Err? {
        return Fail(renamed.error);
      }
      name := renamed.value.name;
      updatedAt := now;
      events := events + [UserEvent("user_name_updated", id, now)];
      return Pass;
    }

    /** `update_email`: always assigns and records an event, even for the same address. */
    method UpdateEmail(newEmail: Email, now: Timestamp)
      modifies this
      ensures Record() == old(Record()).(email := newEmail, updatedAt := now)
      ensures events == old(events) + [UserEvent("user_email_updated", id, now)]
    {
      email := newEmail;
      updatedAt := now;
      events := events + [UserEvent("user_email_updated", id, now)];
    }

    /** `activate`: a no-op on an active user. */
    method Activate(now: Timestamp)
      modifies this
      ensures old(isActive) ==> Record() == old(Record()) && events == old(events)
      ensures !old(isActive) ==> Record() == old(Record()).(isActive := true, updatedAt := now)
                                 && events == old(events) + [UserEvent("user_activated", id, now)]
    {
      if isActive {
        return;
      }
      isActive := true;
      updatedAt := now;
      events := events + [UserEvent("user_activated", id, now)];
    }

    /** `deactivate`: a no-op on an inactive user. */
    method Deactivate(now: Timestamp)
      modifies this
      ensures !old(isActive) ==> Record() == old(Record()) && events == old(events)
      ensures old(isActive) ==> Record() == old(Record()).(isActive := false, updatedAt := now)
                                && events == old(events) + [UserEvent("user_deactivated", id, now)]
    {
      if !isActive {
        return;
      }
      isActive := false;
      updatedAt := now;
      events := events + [UserEvent("user_deactivated", id, now)];
    }

    /** `get_domain_events`: returns the buffer in emission order and empties it. */
    method GetDomainEvents() returns (drained: seq<DomainEvent>)
      modifies this`events
      ensures drained == old(events) && events == []
    {
      drained := events;
      events := [];
    }

    /** `__eq__`. */
    predicate Equals(other: User) {
      id == other.id
    }

    /** `__hash__`: the hash of the id. */
    function Hash(): Uuid {
      id
    }
  }

  /** Users are equal, and hash alike, exactly when their ids are; name, email
      and the other fields play no part. */
  lemma UserIdentity(a: User, b: User)
    ensures a.Equals(b) <==> a.id == b.id
    ensures a.Equals(b) ==> a.Hash() == b.Hash()
    ensures a.Equals(b) <==> b.Equals(a)
  {
  }
}
