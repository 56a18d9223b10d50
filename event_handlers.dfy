/**
 * The event worker (src/workers/events/handlers.py): the listener receives
 * every message published on a channel matching `events:*`, decodes it, and
 * dispatches on `event_type` to a handler that enqueues background tasks.
 *
 * A handler is a function from the event's data to the tasks it enqueues; an
 * exception inside a handler or inside the loop body is swallowed, which the
 * model states as "no task". The user handler reads the write store of users,
 * given as the map the user service keeps.
 */
module EventHandlers {
  import opened Common
  import opened Text
  import opened Events
  import opened UserValues
  import opened UserEntities
  import opened Ports
  import opened UserService

  /** A `.delay(...)` call on one of the worker tasks. */
  datatype Task =
    | SendWelcomeEmail(userId: string, email: string)
    | SyncOrderToReadModel(orderId: PyValue)
    | SendOrderConfirmation(orderId: PyValue)
    | ProcessPayment(orderId: PyValue, paymentMethod: string)

  /** `json.loads(message["data"])` when it is an object: its `"event_type"`
      value, and `data.get("data", {})`, which is `None` when that value is not
      an object. */
  datatype Envelope = Envelope(eventType: PyValue, data: Option<Payload>)

  /** A message from `pubsub.listen()`: its `"type"`, its channel, and its body
      when the body decodes to a JSON object. */
  datatype Message = Message(kind: string, channel: string, body: Option<Envelope>)

  /** What `publish_event(event_type, data)` puts on the wire: the message
      `{"event_type": ..., "data": ...}` on `events:<event_type>`, as a pattern
      subscriber receives it. `json.dumps` raises on a value JSON cannot hold,
      and `publish_event` swallows that: nothing is sent. */
  function Deliver(eventType: string, data: Payload): Option<Message> {
    if IsJsonPayload(data) then Some(Message("pmessage", "events:" + eventType, Some(Envelope(PyStr(eventType), Some(data)))))
    else None
  }

  // ---------------------------------------------------------------------
  // The handlers

  /** `send_welcome_email.delay(str(user.id), str(user.email))` when the write
      store has the user and the row loads. */
  function WelcomeFor(users: map<Uuid, UserRow>, id: Uuid): seq<Task> {
    if id !in users then []
    else match EntityOf(users[id])
      case Err(_) => []
      case Ok(u) => [SendWelcomeEmail(UuidText(u.id), u.email.value)]
  }

  /** `handle_user_registered` as written: `UserId(user_id)` on the payload's
      value, which raises unless the value is a UUID object. */
  function HandleUserRegisteredAsWritten(data: Option<Payload>, users: map<Uuid, UserRow>): seq<Task> {
    match data
    case None => []
    case Some(d) =>
      var v := Get(d, "user_id");
      if !Truthy(v) then []
      else match NewUserId(v)
        case Err(_) => []
        case Ok(id) => WelcomeFor(users, id)
  }

  /** `handle_user_registered` with the id parsed first, `UserId(UUID(user_id))`:
      the text of a UUID loads that user; any other value raises. */
  function HandleUserRegistered(data: Option<Payload>, users: map<Uuid, UserRow>): seq<Task> {
    match data
    case None => []
    case Some(d) =>
      var v := Get(d, "user_id");
      if !Truthy(v) then []
      else match v
        case PyStr(text) =>
          (match ParseUuid(text)
           case None => []
           case Some(id) => WelcomeFor(users, id))
        case _ => []
  }

  /** `handle_order_created` */
  function HandleOrderCreated(data: Option<Payload>): seq<Task> {
    match data
    case None => []
    case Some(d) =>
      var v := Get(d, "order_id");
      if Truthy(v) then [SyncOrderToReadModel(v)] else []
  }

  /** `handle_order_confirmed` */
  function HandleOrderConfirmed(data: Option<Payload>): seq<Task> {
    match data
    case None => []
    case Some(d) =>
      var v := Get(d, "order_id");
      if Truthy(v) then [SendOrderConfirmation(v), ProcessPayment(v, "credit_card")] else []
  }

  // ---------------------------------------------------------------------
  // The dispatch in `start_event_listener`

  function DispatchAsWritten(env: Envelope, users: map<Uuid, UserRow>): seq<Task> {
    if env.eventType == PyStr("user_registered") then HandleUserRegisteredAsWritten(env.data, users)
    else if env.eventType == PyStr("order_created") then HandleOrderCreated(env.data)
    else if env.eventType == PyStr("order_confirmed") then HandleOrderConfirmed(env.data)
    else []
  }

  function Dispatch(env: Envelope, users: map<Uuid, UserRow>): seq<Task> {
    if env.eventType == PyStr("user_registered") then HandleUserRegistered(env.data, users)
    else if env.eventType == PyStr("order_created") then HandleOrderCreated(env.data)
    else if env.eventType == PyStr("order_confirmed") then HandleOrderConfirmed(env.data)
    else []
  }

  /** One iteration of the loop as written: only `pmessage` messages whose
      body decodes are dispatched. */
  function RouteAsWritten(m: Message, users: map<Uuid, UserRow>): seq<Task> {
    if m.kind == "pmessage" && m.body.Some? then DispatchAsWritten(m.body.value, users) else []
  }

  /** One iteration of the loop, with the corrected user handler. */
  function Route(m: Message, users: map<Uuid, UserRow>): seq<Task> {
    if m.kind == "pmessage" && m.body.Some? then Dispatch(m.body.value, users) else []
  }

  function RouteWith(users: map<Uuid, UserRow>): Message -> seq<Task> {
    m => Route(m, users)
  }

  /** The tasks the corrected listener enqueues over a sequence of messages,
      in order. */
  function RouteAll(ms: seq<Message>, users: map<Uuid, UserRow>): seq<Task> {
    FlatMap(RouteWith(users), ms)
  }

  function RouteAsWrittenWith(users: map<Uuid, UserRow>): Message -> seq<Task> {
    m => RouteAsWritten(m, users)
  }

  /** The tasks the listener as written enqueues over a sequence of messages,
      in order. */
  function RouteAllAsWritten(ms: seq<Message>, users: map<Uuid, UserRow>): seq<Task> {
    FlatMap(RouteAsWrittenWith(users), ms)
  }

  /** `for message in pubsub.listen(): ...` as written, over the messages
      received, with the write store as it is while they are handled. */
  method Listen(ms: seq<Message>, users: map<Uuid, UserRow>) returns (tasks: seq<Task>)
    ensures tasks == RouteAllAsWritten(ms, users)
  {
    tasks := [];
    var i := 0;
    while i < |ms|
      invariant 0 <= i <= |ms|
      invariant tasks == RouteAllAsWritten(ms[..i], users)
    {
      assert ms[..i + 1][..i] == ms[..i];
      var m := ms[i];
      if m.kind == "pmessage" && m.body.Some? {
        var env := m.body.value;
        if env.eventType == PyStr("user_registered") {
          tasks := tasks + HandleUserRegisteredAsWritten(env.data, users);
        } else if env.eventType == PyStr("order_created") {
          tasks := tasks + HandleOrderCreated(env.data);
        } else if env.eventType == PyStr("order_confirmed") {
          tasks := tasks + HandleOrderConfirmed(env.data);
        }
      }
      i := i + 1;
    }
    assert ms[..i] == ms;
  }

  // ---------------------------------------------------------------------
  // Properties

  /** Messages are handled one by one: what a message enqueues does not depend
      on the messages before or after it, so one that fails enqueues nothing
      and the loop goes on. */
  lemma RouteAllAppend(a: seq<Message>, b: seq<Message>, users: map<Uuid, UserRow>)
    ensures RouteAll(a + b, users) == RouteAll(a, users) + RouteAll(b, users)
    ensures RouteAllAsWritten(a + b, users) == RouteAllAsWritten(a, users) + RouteAllAsWritten(b, users)
  {
    FlatMapAppend(RouteWith(users), a, b);
    FlatMapAppend(RouteAsWrittenWith(users), a, b);
  }

  /** The listener as written never enqueues a welcome email, whatever
      messages arrive, as long as their data came out of `json.loads`. */
  lemma ListenSendsNoWelcome(ms: seq<Message>, users: map<Uuid, UserRow>)
    requires forall i :: 0 <= i < |ms| && ms[i].body.Some? && ms[i].body.value.data.Some?
                         ==> IsJsonPayload(ms[i].body.value.data.value)
    ensures forall t :: t in RouteAllAsWritten(ms, users) ==> !t.SendWelcomeEmail?
  {
    forall t | t in RouteAllAsWritten(ms, users) ensures !t.SendWelcomeEmail? {
      FlatMapMember(RouteAsWrittenWith(users), ms, t);
      var i :| 0 <= i < |ms| && t in RouteAsWritten(ms[i], users);
      var m := ms[i];
      if m.body.Some? && m.body.value.eventType == PyStr("user_registered") && m.body.value.data.Some? {
        WelcomeNeverSentAsWritten(m.body.value.data.value, users);
      }
    }
  }

  /** Without `user_registered` events the listener as written and the
      corrected one enqueue the same tasks. */
  lemma ListenAgreesElsewhere(ms: seq<Message>, users: map<Uuid, UserRow>)
    requires forall i :: 0 <= i < |ms| ==> ms[i].body.None? || ms[i].body.value.eventType != PyStr("user_registered")
    ensures RouteAllAsWritten(ms, users) == RouteAll(ms, users)
  {
    forall i | 0 <= i < |ms| ensures RouteAsWrittenWith(users)(ms[i]) == RouteWith(users)(ms[i]) {
      RouteAgreesElsewhere(ms[i], users);
    }
    FlatMapAgree(RouteAsWrittenWith(users), RouteWith(users), ms);
  }

  /** Only `pmessage` messages are processed, and only types the listener
      knows enqueue anything. */
  lemma RouteFilters(m: Message, users: map<Uuid, UserRow>)
    ensures m.kind != "pmessage" ==> Route(m, users) == []
    ensures m.body.None? ==> Route(m, users) == []
    ensures m.body.Some? && m.body.value.eventType !in {PyStr("user_registered"), PyStr("order_created"), PyStr("order_confirmed")}
            ==> Route(m, users) == []
  {
  }

  /** The order handlers look at nothing but the payload's `order_id`: two
      payloads with the same id enqueue the same tasks. */
  lemma OrderTasksFollowId(d1: Payload, d2: Payload)
    requires Get(d1, "order_id") == Get(d2, "order_id")
    ensures HandleOrderCreated(Some(d1)) == HandleOrderCreated(Some(d2))
    ensures HandleOrderConfirmed(Some(d1)) == HandleOrderConfirmed(Some(d2))
  {
  }

  /** The order handlers enqueue something exactly for a truthy id; every task
      they enqueue is one of theirs, for that id, and payment is always by
      `credit_card`. */
  lemma OrderTasksCarryId(d: Payload)
    ensures HandleOrderCreated(Some(d)) != [] <==> Truthy(Get(d, "order_id"))
    ensures HandleOrderConfirmed(Some(d)) != [] <==> Truthy(Get(d, "order_id"))
    ensures forall t :: t in HandleOrderCreated(Some(d)) ==>
              t.SyncOrderToReadModel? && t.orderId == Get(d, "order_id")
    ensures forall t :: t in HandleOrderConfirmed(Some(d)) ==>
              (t.SendOrderConfirmation? || t.ProcessPayment?) && t.orderId == Get(d, "order_id")
    ensures forall t :: t in HandleOrderConfirmed(Some(d)) && t.ProcessPayment? ==> t.paymentMethod == "credit_card"
  {
  }

  /** A missing or empty id enqueues nothing, whatever the handled type. */
  lemma MissingIdNoTasks(d: Payload, users: map<Uuid, UserRow>)
    ensures !Truthy(Get(d, "user_id")) ==> HandleUserRegistered(Some(d), users) == []
    ensures !Truthy(Get(d, "order_id")) ==> HandleOrderCreated(Some(d)) == [] && HandleOrderConfirmed(Some(d)) == []
  {
  }

  /** The welcome email goes out exactly when the write store has the user,
      to the stored address. */
  lemma WelcomeSpec(users: map<Uuid, UserRow>, id: Uuid)
    requires RowsValid(users)
    ensures HandleUserRegistered(Some(IdPayload("user_id", id)), users)
            == (if id in users then [SendWelcomeEmail(UuidText(id), users[id].email)] else [])
  {
    UuidTextRoundTrip(id);
    if id in users {
      RowLoads(id, users[id]);
    }
  }

  /** As written, no JSON event ever yields a welcome email: `json.loads`
      never produces a UUID object, so `UserId(user_id)` always raises. */
  lemma WelcomeNeverSentAsWritten(d: Payload, users: map<Uuid, UserRow>)
    requires IsJsonPayload(d)
    ensures HandleUserRegisteredAsWritten(Some(d), users) == []
  {
    var v := Get(d, "user_id");
    if "user_id" in d {
      assert IsJsonValue(d["user_id"]);
    }
    assert !v.PyUuid?;
  }

  /** The as-written and corrected listeners agree on every message that is
      not a `user_registered` event. */
  lemma RouteAgreesElsewhere(m: Message, users: map<Uuid, UserRow>)
    requires m.body.None? || m.body.value.eventType != PyStr("user_registered")
    ensures RouteAsWritten(m, users) == Route(m, users)
  {
  }

  /** End to end: the registration `create_user` publishes reaches the
      listener, which enqueues the welcome email for the new user; as written
      it enqueues nothing. */
  lemma RegistrationSendsWelcome(s: UserStore, email: string, name: string, newId: Uuid, now: Timestamp,
                                 ttl: int, faults: Faults)
    requires ValidStore(s) && FreshId(s, newId)
    requires CreateUserEffect(s, email, name, newId, now, ttl, faults).1.Ok?
    ensures var s' := CreateUserEffect(s, email, name, newId, now, ttl, faults).0;
            var m := Deliver("user_registered", IdPayload("user_id", newId));
            && Publish("user_registered", IdPayload("user_id", newId)) in s'.log
            && m.Some?
            && Route(m.value, s'.users) == [SendWelcomeEmail(UuidText(newId), email)]
            && RouteAsWritten(m.value, s'.users) == []
  {
    var s' := CreateUserEffect(s, email, name, newId, now, ttl, faults).0;
    CreateRegisters(s, email, name, newId, now, ttl, faults);
    RegistrationDelivered(newId, s'.users);
    WelcomeSpec(s'.users, newId);
    WelcomeNeverSentAsWritten(IdPayload("user_id", newId), s'.users);
  }

  /** The registration message reaches the `user_registered` handler. */
  lemma RegistrationDelivered(id: Uuid, users: map<Uuid, UserRow>)
    ensures var m := Deliver("user_registered", IdPayload("user_id", id));
            && m.Some?
            && Route(m.value, users) == HandleUserRegistered(Some(IdPayload("user_id", id)), users)
            && RouteAsWritten(m.value, users) == HandleUserRegisteredAsWritten(Some(IdPayload("user_id", id)), users)
  {
  }

  /** End to end for orders: the `order_created` and `order_confirmed` events
      the order service publishes enqueue the sync, and the confirmation and
      payment, for that order's id text. */
  lemma OrderEventsRouted(orderId: Uuid, users: map<Uuid, UserRow>)
    ensures var id := PyStr(UuidText(orderId));
            && Deliver("order_created", IdPayload("order_id", orderId)).Some?
            && Route(Deliver("order_created", IdPayload("order_id", orderId)).value, users) == [SyncOrderToReadModel(id)]
            && Deliver("order_confirmed", IdPayload("order_id", orderId)).Some?
            && Route(Deliver("order_confirmed", IdPayload("order_id", orderId)).value, users)
               == [SendOrderConfirmation(id), ProcessPayment(id, "credit_card")]
  {
  }

  /** The address of the example registration passes validation. */
  lemma ExampleAddressForm()
    ensures AddressForm("a@b.co")
  {
    var s := "a@b.co";
    var d := s[2..];
    assert d[1] == '.' && d[..1] == "b" && d[2..] == "co";
    assert DomainPart(d);
    assert s[..1] == "a";
  }

  /** A store holding one valid row is valid. */
  lemma SingleRowValid(id: Uuid, row: UserRow)
    requires ValidRow(id, row)
    ensures RowsValid(map[id := row])
  {
    var users := map[id := row];
    assert forall a :: a in users ==> a == id;
  }

  /** The store of the example registration is one the user service can hold. */
  lemma ExampleUsersValid()
    ensures RowsValid(map[7 := UserRow(7, "a@b.co", "Ann", "true", 0, 0)])
  {
    ExampleAddressForm();
    var name := "Ann";
    assert !IsSpace(name[0]);
    assert !IsBlank(name);
    SingleRowValid(7, UserRow(7, "a@b.co", name, "true", 0, 0));
  }

  /** A concrete registration that shows the lost welcome email. */
  lemma LostWelcomeExample()
    ensures var users := map[7 := UserRow(7, "a@b.co", "Ann", "true", 0, 0)];
            var m := Deliver("user_registered", IdPayload("user_id", 7)).value;
            RouteAsWritten(m, users) == [] && Route(m, users) == [SendWelcomeEmail(UuidText(7), "a@b.co")]
  {
    var users := map[7 := UserRow(7, "a@b.co", "Ann", "true", 0, 0)];
    ExampleUsersValid();
    RegistrationDelivered(7, users);
    WelcomeSpec(users, 7);
    WelcomeNeverSentAsWritten(IdPayload("user_id", 7), users);
  }
}
