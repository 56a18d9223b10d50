/**
 * Domain events and the dictionaries they carry.
 *
 * Both aggregates record an event as the dictionary
 * `{"event_type": ..., "data": {...}, "occurred_at": ...}`; the data values are
 * Python objects, of which the model keeps the kinds that reach the code.
 */
module Events {
  import opened Common
  import opened Text

  /** A Python value found in an event payload. */
  datatype PyValue =
    | PyStr(s: string)
    | PyUuid(u: Uuid)        // a `uuid.UUID` object
    | PyInt(i: int)
    | PyBool(b: bool)
    | PyNone

  type Payload = map<string, PyValue>

  /** Python's truth value (`if v:`): empty strings, 0, False and None are false;
      a UUID object defines neither `__bool__` nor `__len__`, so it is true. */
  predicate Truthy(v: PyValue) {
    match v
    case PyStr(s) => s != []
    case PyUuid(_) => true
    case PyInt(i) => i != 0
    case PyBool(b) => b
    case PyNone => false
  }

  /** `d.get(key)`. */
  function Get(d: Payload, key: string): PyValue {
    if key in d then d[key] else PyNone
  }

  /** The values `json.loads` can produce: never a UUID object. */
  predicate IsJsonValue(v: PyValue) { !v.PyUuid? }

  predicate IsJsonPayload(d: Payload) {
    forall k :: k in d ==> IsJsonValue(d[k])
  }

  /** A buffered domain event: type, data and the instant it was recorded. */
  datatype DomainEvent = DomainEvent(eventType: string, data: Payload, occurredAt: Timestamp)

  /** `{key: str(id)}`, the data of most events. */
  function IdPayload(key: string, id: Uuid): (d: Payload)
    ensures IsJsonPayload(d) && Get(d, key) == PyStr(UuidText(id)) && Truthy(Get(d, key))
  {
    map[key := PyStr(UuidText(id))]
  }

  /** The pair a service hands to `publish_event` for each drained event. */
  function Published(e: DomainEvent): (string, Payload) {
    (e.eventType, e.data)
  }
}
