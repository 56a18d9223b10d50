/**
 * The ports the application services drive, as in-memory state.
 *
 * Write stores are maps from id to row; read models are document collections
 * (sequences of documents, in insertion order); the cache is a map. Every call
 * a service makes on a port is appended to a trace of `PortCall`s, so that the
 * contracts can state which calls happen and in which order.
 *
 * The document-collection functions give the semantics of the calls the read
 * models make: `find_one` returns the first match, `insert_one` appends,
 * `update_one(..., upsert=True)` with `$set` of a full document replaces the
 * first match or appends, and `delete_one` removes the first match.
 */
module Ports {
  import opened Common
  import opened Events

  datatype PortCall =
    | RepoGetById(id: Uuid)
    | RepoGetByEmail(email: string)
    | RepoGetByUser(userId: Uuid)
    | RepoAdd(id: Uuid)
    | RepoUpdate(id: Uuid)
    | RepoDelete(id: Uuid)
    | Publish(eventType: string, data: Payload)
    | ReadGetById(id: Uuid)
    | ReadGetByUser(userId: Uuid)
    | ReadSearch(email: string)
    | ReadCreate(id: Uuid)
    | ReadUpdate(id: Uuid)
    | ReadDelete(id: Uuid)
    | CacheGet(id: Uuid)
    | CacheSet(id: Uuid, ttl: int)
    | CacheDelete(id: Uuid)

  /** Which ports raise during one service call: the read model's writes are
      wrapped in `try`, its reads and every cache call are not. Publishing never
      raises: `publish_event` catches its own errors. */
  datatype Faults = Faults(readModelDown: bool, cacheDown: bool)

  /** `for event in events: publish_event(event["event_type"], event["data"])` */
  function PublishCalls(events: seq<DomainEvent>): (r: seq<PortCall>)
    ensures |r| == |events|
    ensures forall i :: 0 <= i < |events| ==> r[i] == Publish(events[i].eventType, events[i].data)
  {
    if events == [] then [] else [Publish(events[0].eventType, events[0].data)] + PublishCalls(events[1..])
  }

  /** The publishing loop itself: one `publish_event` per buffered event, in order. */
  method PublishEach(events: seq<DomainEvent>) returns (calls: seq<PortCall>)
    ensures calls == PublishCalls(events)
  {
    calls := [];
    var i := 0;
    while i < |events|
      invariant 0 <= i <= |events|
      invariant calls == PublishCalls(events[..i])
    {
      assert PublishCalls(events[..i + 1]) == PublishCalls(events[..i]) + [Publish(events[i].eventType, events[i].data)];
      calls := calls + [Publish(events[i].eventType, events[i].data)];
      i := i + 1;
    }
    assert events[..i] == events;
  }

  /** Helper for the service proofs: appending three calls one by one is
      appending the three of them. */
  lemma AppendThree<T>(xs: seq<T>, a: T, b: T, c: T)
    ensures xs + [a] + [b] + [c] == xs + [a, b, c]
  {
  }

  /** Helper for the service proofs: the same for five calls. */
  lemma AppendFive<T>(xs: seq<T>, a: T, b: T, c: T, d: T, e: T)
    ensures xs + [a] + [b] + [c] + [d] + [e] == xs + [a, b, c, d, e]
  {
  }

  // ---------------------------------------------------------------------
  // Document collections keyed by a string field

  /** Position of the first document whose key is `k`. */
  function FirstMatch<D>(docs: seq<D>, key: D -> string, k: string): (r: Option<nat>)
    ensures r.Some? ==> r.value < |docs| && key(docs[r.value]) == k
    ensures r.Some? ==> forall j :: 0 <= j < r.value ==> key(docs[j]) != k
    ensures r.None? ==> forall j :: 0 <= j < |docs| ==> key(docs[j]) != k
  {
    if docs == [] then None
    else if key(docs[0]) == k then Some(0)
    else match FirstMatch(docs[1..], key, k)
      case None => None
      case Some(j) => Some(j + 1)
  }

  /** `find_one({field: k})` */
  function FindOne<D>(docs: seq<D>, key: D -> string, k: string): Option<D> {
    match FirstMatch(docs, key, k)
    case None => None
    case Some(j) => Some(docs[j])
  }

  /** `update_one({field: k}, {"$set": d}, upsert=True)` with `d` a full document. */
  function UpsertDoc<D>(docs: seq<D>, key: D -> string, k: string, d: D): seq<D> {
    match FirstMatch(docs, key, k)
    case None => docs + [d]
    case Some(j) => docs[j := d]
  }

  /** `delete_one({field: k})` */
  function DeleteOne<D>(docs: seq<D>, key: D -> string, k: string): seq<D> {
    match FirstMatch(docs, key, k)
    case None => docs
    case Some(j) => docs[..j] + docs[j + 1..]
  }

  /** `find({field: k})`, in collection order. */
  function FindAll<D>(docs: seq<D>, key: D -> string, k: string): (r: seq<D>)
    ensures forall i :: 0 <= i < |r| ==> r[i] in docs && key(r[i]) == k
    ensures forall i :: 0 <= i < |docs| && key(docs[i]) == k ==> docs[i] in r
    ensures |r| <= |docs|
  {
    if docs == [] then []
    else (if key(docs[0]) == k then [docs[0]] else []) + FindAll(docs[1..], key, k)
  }

  predicate UniqueKeys<D>(docs: seq<D>, key: D -> string) {
    forall i, j :: 0 <= i < j < |docs| ==> key(docs[i]) != key(docs[j])
  }

  /** Appending a document under a new key keeps keys unique. */
  lemma UniqueKeysAppend<D>(docs: seq<D>, key: D -> string, d: D)
    requires UniqueKeys(docs, key)
    requires forall i :: 0 <= i < |docs| ==> key(docs[i]) != key(d)
    ensures UniqueKeys(docs + [d], key)
  {
    var r := docs + [d];
    forall i, j | 0 <= i < j < |r| ensures key(r[i]) != key(r[j]) {
      if j < |docs| {
        assert r[i] == docs[i] && r[j] == docs[j];
      } else {
        assert r[i] == docs[i] && r[j] == d;
      }
    }
  }

  /** The first match is characterised by its two properties. */
  lemma FirstMatchAt<D>(docs: seq<D>, key: D -> string, k: string, j: nat)
    requires j < |docs| && key(docs[j]) == k
    requires forall i :: 0 <= i < j ==> key(docs[i]) != k
    ensures FirstMatch(docs, key, k) == Some(j)
  {
  }

  /** After an upsert the document is found under its key, every other key
      finds what it found before, and keys stay unique. */
  lemma UpsertSpec<D>(docs: seq<D>, key: D -> string, d: D, other: string)
    ensures FindOne(UpsertDoc(docs, key, key(d), d), key, key(d)) == Some(d)
    ensures other != key(d) ==>
              FindOne(UpsertDoc(docs, key, key(d), d), key, other) == FindOne(docs, key, other)
    ensures UniqueKeys(docs, key) ==> UniqueKeys(UpsertDoc(docs, key, key(d), d), key)
  {
    var r := UpsertDoc(docs, key, key(d), d);
    var at := FirstMatch(docs, key, key(d));
    var p := if at.Some? then at.value else |docs|;
    assert p < |r| && r[p] == d;
    assert forall i :: 0 <= i < |r| && i != p ==> r[i] == docs[i];
    FirstMatchAt(r, key, key(d), p);
    if other != key(d) {
      match FirstMatch(docs, key, other)
      case None =>
        assert forall i :: 0 <= i < |r| ==> key(r[i]) != other;
      case Some(j) =>
        FirstMatchAt(r, key, other, j);
    }
  }

  /** An upsert keeps the old documents except the one it replaces, and adds `d`. */
  lemma UpsertMembers<D>(docs: seq<D>, key: D -> string, k: string, d: D)
    ensures forall i :: 0 <= i < |UpsertDoc(docs, key, k, d)| ==>
              UpsertDoc(docs, key, k, d)[i] == d || UpsertDoc(docs, key, k, d)[i] in docs
  {
  }

  /** `delete_one` only removes documents. */
  lemma DeleteOneMembers<D>(docs: seq<D>, key: D -> string, k: string)
    ensures forall i :: 0 <= i < |DeleteOne(docs, key, k)| ==> DeleteOne(docs, key, k)[i] in docs
  {
    match FirstMatch(docs, key, k)
    case None =>
    case Some(j) =>
      var r := DeleteOne(docs, key, k);
      assert forall i :: 0 <= i < |r| ==> r[i] == docs[if i < j then i else i + 1];
  }

  /** After `delete_one(k)` every other key finds what it found before; with
      unique keys, `k` is no longer found. */
  lemma DeleteOneSpec<D>(docs: seq<D>, key: D -> string, k: string, other: string)
    ensures other != k ==> FindOne(DeleteOne(docs, key, k), key, other) == FindOne(docs, key, other)
    ensures UniqueKeys(docs, key) ==> FindOne(DeleteOne(docs, key, k), key, k).None?
    ensures UniqueKeys(docs, key) ==> UniqueKeys(DeleteOne(docs, key, k), key)
  {
    var r := DeleteOne(docs, key, k);
    match FirstMatch(docs, key, k)
    case None =>
    case Some(i) =>
      assert forall j :: 0 <= j < |r| ==> r[j] == docs[if j < i then j else j + 1];
      if other != k {
        match FirstMatch(docs, key, other)
        case None =>
        case Some(j) =>
          var j' := if j < i then j else j - 1;
          assert r[j'] == docs[j];
          FirstMatchAt(r, key, other, j');
      }
  }
}
