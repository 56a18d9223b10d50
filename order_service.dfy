/**
 * The order application service (src/application/orders/service.py).
 *
 * Its ports are kept as state of the service: the write store as a map from
 * order id to row, the read model as a collection of documents, and a trace of
 * every call made on a port. Each command is stated against a pure function of
 * the previous `OrderStore` (`Execute`, `CreateEffect`, `GetOrderEffect`); the
 * properties of the service are lemmas about those functions.
 */
module OrderService {
  import opened Common
  import opened Text
  import opened Events
  import opened OrderValues
  import opened OrderEntities
  import opened Ports

  // ---------------------------------------------------------------------
  // Data transfer objects and `_to_dto`

  datatype AddressDto = AddressDto(street: string, city: string, state: string, zipCode: string, country: string)

  datatype ItemDto = ItemDto(
    id: Uuid, productId: Uuid, productName: string, price: int, currency: string, quantity: int)

  datatype OrderDto = OrderDto(
    id: Uuid, userId: Uuid, status: string, shippingAddress: AddressDto, items: seq<ItemDto>,
    totalAmount: int, totalCurrency: string, createdAt: Timestamp, updatedAt: Timestamp)

  function AddressDtoOf(a: ShippingAddress): AddressDto {
    AddressDto(a.street, a.city, a.state, a.zipCode, a.country)
  }

  function ItemDtoOf(l: ItemLine): ItemDto {
    ItemDto(l.id, l.productId, l.productName, l.price.amount, l.price.currency, l.quantity)
  }

  function ItemDtosOf(lines: seq<ItemLine>): (r: seq<ItemDto>)
    ensures |r| == |lines|
    ensures forall i :: 0 <= i < |lines| ==> r[i] == ItemDtoOf(lines[i])
  {
    if lines == [] then [] else [ItemDtoOf(lines[0])] + ItemDtosOf(lines[1..])
  }

  /** `_to_dto`: the total is computed first, so an order whose items are in
      several currencies raises before any field is read. */
  function DtoOf(rec: OrderRecord): Result<OrderDto> {
    match TotalOf(rec.items)
    case Err(e) => Err(e)
    case Ok(total) =>
      Ok(OrderDto(rec.id, rec.userId, StatusValue(rec.status), AddressDtoOf(rec.address),
                  ItemDtosOf(rec.items), total.amount, total.currency, rec.createdAt, rec.updatedAt))
  }

  /** The DTO of a stored order fails exactly when its items mix currencies; it
      carries the order's identity and status, one entry per item with that
      item's fields, and the sum of price times quantity in the first item's
      currency (0 USD for no items). */
  lemma DtoOfSpec(rec: OrderRecord)
    requires ValidRecord(rec)
    ensures DtoOf(rec).Ok? <==> rec.items == [] || AllInCurrency(rec.items, rec.items[0].price.currency)
    ensures DtoOf(rec).Err? ==> DtoOf(rec) == Err(ValueError(CurrencyMismatch))
    ensures DtoOf(rec).Ok? ==>
              var d := DtoOf(rec).value;
              d.id == rec.id && d.userId == rec.userId && ParseStatus(d.status) == Some(rec.status)
              && |d.items| == |rec.items|
              && (forall i :: 0 <= i < |d.items| ==>
                    d.items[i].id == rec.items[i].id && d.items[i].productId == rec.items[i].productId
                    && d.items[i].quantity == rec.items[i].quantity
                    && Money(d.items[i].price, d.items[i].currency) == rec.items[i].price)
              && d.totalAmount == Subtotal(rec.items)
              && d.totalCurrency == (if rec.items == [] then "USD" else rec.items[0].price.currency)
  {
    StatusRoundTrip(rec.status);
    assert AllValid(rec.items);
    TotalOfSpec(rec.items);
  }

  // ---------------------------------------------------------------------
  // Read-model documents: `_to_read_model_dict` and `_from_read_model_dict`

  datatype ItemDoc = ItemDoc(
    id: string, productId: string, productName: string, price: string, currency: string, quantity: int)

  datatype OrderDoc = OrderDoc(
    id: string, userId: string, status: string, shippingAddress: AddressDto, items: seq<ItemDoc>,
    totalAmount: string, totalCurrency: string, createdAt: string, updatedAt: string)

  function ItemDocOf(i: ItemDto): ItemDoc {
    ItemDoc(UuidText(i.id), UuidText(i.productId), i.productName, IntText(i.price), i.currency, i.quantity)
  }

  function ItemDocsOf(items: seq<ItemDto>): seq<ItemDoc> {
    if items == [] then [] else [ItemDocOf(items[0])] + ItemDocsOf(items[1..])
  }

  /** `_to_read_model_dict`: ids, amounts and times become strings. */
  function ToDoc(d: OrderDto): OrderDoc {
    OrderDoc(UuidText(d.id), UuidText(d.userId), d.status, d.shippingAddress, ItemDocsOf(d.items),
             IntText(d.totalAmount), d.totalCurrency, TimeText(d.createdAt), TimeText(d.updatedAt))
  }

  function ItemFromDoc(x: ItemDoc): Result<ItemDto> {
    match (ParseUuid(x.id), ParseUuid(x.productId), ParseInt(x.price))
    case (Some(id), Some(pid), Some(p)) => Ok(ItemDto(id, pid, x.productName, p, x.currency, x.quantity))
    case _ => Err(MalformedDocument)
  }

  function ItemsFromDocs(xs: seq<ItemDoc>): Result<seq<ItemDto>> {
    if xs == [] then Ok([])
    else match (ItemFromDoc(xs[0]), ItemsFromDocs(xs[1..]))
      case (Ok(i), Ok(rest)) => Ok([i] + rest)
      case _ => Err(MalformedDocument)
  }

  /** `_from_read_model_dict`: a string that does not parse raises. */
  function FromDoc(doc: OrderDoc): Result<OrderDto> {
    match (ParseUuid(doc.id), ParseUuid(doc.userId), ItemsFromDocs(doc.items),
           ParseInt(doc.totalAmount), ParseTime(doc.createdAt), ParseTime(doc.updatedAt))
    case (Some(id), Some(uid), Ok(items), Some(total), Some(c), Some(u)) =>
      Ok(OrderDto(id, uid, doc.status, doc.shippingAddress, items, total, doc.totalCurrency, c, u))
    case _ => Err(MalformedDocument)
  }

  lemma {:induction false} ItemsRoundTrip(items: seq<ItemDto>)
    ensures ItemsFromDocs(ItemDocsOf(items)) == Ok(items)
  {
    if items != [] {
      var i := items[0];
      UuidTextRoundTrip(i.id);
      UuidTextRoundTrip(i.productId);
      IntTextRoundTrip(i.price);
      ItemsRoundTrip(items[1..]);
      assert ItemDocsOf(items)[1..] == ItemDocsOf(items[1..]);
      assert [i] + items[1..] == items;
    }
  }

  /** Reading back a document the service wrote gives the DTO it was written from. */
  lemma DocRoundTrip(d: OrderDto)
    ensures FromDoc(ToDoc(d)) == Ok(d)
  {
    UuidTextRoundTrip(d.id);
    UuidTextRoundTrip(d.userId);
    ItemsRoundTrip(d.items);
    IntTextRoundTrip(d.totalAmount);
    TimeTextRoundTrip(d.createdAt);
    TimeTextRoundTrip(d.updatedAt);
  }

  /** Documents are found by `{"id": ...}` and by `{"user_id": ...}`. */
  function DocKey(d: OrderDoc): string { d.id }

  function UserKey(d: OrderDoc): string { d.userId }

  /** `[self._from_read_model_dict(data) for data in read_data_list]` */
  function DocsToDtos(docs: seq<OrderDoc>): (r: Result<seq<OrderDto>>)
    ensures r.Ok? <==> forall i :: 0 <= i < |docs| ==> FromDoc(docs[i]).Ok?
    ensures r.Ok? ==> |r.value| == |docs| && forall i :: 0 <= i < |docs| ==> FromDoc(docs[i]) == Ok(r.value[i])
  {
    Traverse(FromDoc, docs)
  }

  // ---------------------------------------------------------------------
  // The ports' state

  datatype OrderStore = OrderStore(orders: map<Uuid, OrderRecord>, readModel: seq<OrderDoc>, log: seq<PortCall>)

  /** A document the service wrote: it reads back, and writing what it reads
      back gives it again. */
  predicate Canonical(doc: OrderDoc) {
    FromDoc(doc).Ok? && ToDoc(FromDoc(doc).value) == doc
  }

  /** What every service call preserves: rows are stored under their own id and
      keep the aggregate's invariant; the read model holds at most one document
      per order, only for stored orders, each one readable. */
  predicate ValidStore(s: OrderStore) {
    RowsValid(s.orders) && DocsValid(s.readModel, s.orders)
  }

  predicate RowsValid(orders: map<Uuid, OrderRecord>) {
    forall id :: id in orders ==> orders[id].id == id && ValidRecord(orders[id])
  }

  predicate DocsValid(docs: seq<OrderDoc>, orders: map<Uuid, OrderRecord>) {
    UniqueKeys(docs, DocKey) && forall doc :: doc in docs ==> Canonical(doc) && FromDoc(doc).value.id in orders
  }

  /** `OrderRepository.update`: does nothing for an unknown id; otherwise
      rewrites status, address, timestamp and items, and keeps the stored user
      and creation time. */
  function UpdateRow(orders: map<Uuid, OrderRecord>, rec: OrderRecord): map<Uuid, OrderRecord> {
    if rec.id in orders then
      orders[rec.id := orders[rec.id].(status := rec.status, address := rec.address,
                                       items := rec.items, updatedAt := rec.updatedAt)]
    else orders
  }

  lemma UpdateRowSpec(orders: map<Uuid, OrderRecord>, rec: OrderRecord)
    ensures rec.id !in orders ==> UpdateRow(orders, rec) == orders
    ensures rec.id in orders && orders[rec.id].id == rec.id && orders[rec.id].userId == rec.userId
            && orders[rec.id].createdAt == rec.createdAt
            ==> UpdateRow(orders, rec) == orders[rec.id := rec]
    ensures UpdateRow(orders, rec).Keys == orders.Keys
  {
  }

  // ---------------------------------------------------------------------
  // Commands on a stored order

  datatype OrderCommand =
    | AddItemCmd(productId: Uuid, productName: string, price: int, currency: string, quantity: int, newItemId: Uuid)
    | RemoveItemCmd(itemId: Uuid)
    | ConfirmCmd
    | CancelCmd

  /** What the aggregate does with a loaded order: the new row and its one event,
      or the error raised (`Money`, then `OrderItem.create`, then the aggregate's
      guard). */
  function Step(rec: OrderRecord, cmd: OrderCommand, now: Timestamp): Result<(OrderRecord, DomainEvent)> {
    match cmd
    case AddItemCmd(pid, name, price, currency, quantity, newItemId) =>
      var money := NewMoney(price, currency);
      if money.Err? then Err(money.error)
      else
        var line := NewItemLine(newItemId, pid, name, money.value, quantity);
        if line.Err? then Err(line.error)
        else
          var check := AddItemCheck(rec.status, rec.items, line.value);
          if check.Fail? then Err(check.error)
          else Ok((rec.(items := MergeLine(rec.items, line.value), updatedAt := now),
                   ItemEvent("order_item_added", rec.id, newItemId, now)))
    case RemoveItemCmd(itemId) =>
      var check := RemoveItemCheck(rec.status, rec.items, itemId);
      if check.Fail? then Err(check.error)
      else Ok((rec.(items := RemoveAt(rec.items, FindItem(rec.items, itemId).value), updatedAt := now),
               ItemEvent("order_item_removed", rec.id, itemId, now)))
    case ConfirmCmd =>
      var check := ConfirmCheck(rec.status, rec.items);
      if check.Fail? then Err(check.error)
      else Ok((rec.(status := Confirmed, updatedAt := now), OrderEvent("order_confirmed", rec.id, now)))
    case CancelCmd =>
      var check := CancelCheck(rec.status);
      if check.Fail? then Err(check.error)
      else Ok((rec.(status := Cancelled, updatedAt := now), OrderEvent("order_cancelled", rec.id, now)))
  }

  /** A command keeps the order's identity, owner, address and creation time,
      stamps it with `now`, and keeps the aggregate's invariant. */
  lemma StepPreservesValid(rec: OrderRecord, cmd: OrderCommand, now: Timestamp)
    requires ValidRecord(rec)
    ensures Step(rec, cmd, now).Ok? ==>
              var next := Step(rec, cmd, now).value.0;
              ValidRecord(next) && next.id == rec.id && next.userId == rec.userId
              && next.address == rec.address && next.createdAt == rec.createdAt && next.updatedAt == now
  {
    match cmd
    case AddItemCmd(pid, name, price, currency, quantity, newItemId) =>
      var money := NewMoney(price, currency);
      if money.Ok? {
        var line := NewItemLine(newItemId, pid, name, money.value, quantity);
        if line.Ok? && AddItemCheck(rec.status, rec.items, line.value).Pass? {
          assert Step(rec, cmd, now).value.0 == rec.(items := MergeLine(rec.items, line.value), updatedAt := now);
          MergedItemsValid(rec, line.value, now);
        }
      }
    case RemoveItemCmd(itemId) =>
      if RemoveItemCheck(rec.status, rec.items, itemId).Pass? {
        var k := FindItem(rec.items, itemId).value;
        assert Step(rec, cmd, now).value.0 == rec.(items := RemoveAt(rec.items, k), updatedAt := now);
        RemovedItemsValid(rec, k, now);
      }
    case ConfirmCmd =>
    case CancelCmd =>
  }

  /** Adding a valid line keeps the order valid. */
  lemma MergedItemsValid(rec: OrderRecord, line: ItemLine, now: Timestamp)
    requires ValidRecord(rec) && ValidLine(line)
    ensures ValidRecord(rec.(items := MergeLine(rec.items, line), updatedAt := now))
  {
    assert AllValid(rec.items);
    MergeLineSpec(rec.items, line, line.productId);
    MergeLineValid(rec.items, line);
  }

  /** Removing a line keeps the order valid. */
  lemma RemovedItemsValid(rec: OrderRecord, k: nat, now: Timestamp)
    requires ValidRecord(rec) && k < |rec.items|
    ensures ValidRecord(rec.(items := RemoveAt(rec.items, k), updatedAt := now))
  {
    assert AllValid(rec.items);
    RemoveAtSpec(rec.items, k);
  }

  /** The tail every command shares: `update`, the events published in order,
      `_to_dto` (which may raise after the write), then the read-model upsert,
      whose failure is logged and swallowed. */
  function Commit(s: OrderStore, rec: OrderRecord, events: seq<DomainEvent>, faults: Faults): (OrderStore, Result<OrderDto>) {
    var written := s.(orders := UpdateRow(s.orders, rec), log := s.log + [RepoUpdate(rec.id)] + PublishCalls(events));
    match DtoOf(rec)
    case Err(e) => (written, Err(e))
    case Ok(dto) =>
      var log := written.log + [ReadUpdate(rec.id)];
      if faults.readModelDown then (written.(log := log), Ok(dto))
      else (written.(readModel := UpsertDoc(s.readModel, DocKey, UuidText(rec.id), ToDoc(dto)), log := log), Ok(dto))
  }

  /** `add_item_to_order`, `remove_item_from_order`, `confirm_order` and
      `cancel_order`: load, or raise `OrderNotFoundError`; apply; commit. */
  function Execute(s: OrderStore, orderId: Uuid, cmd: OrderCommand, now: Timestamp, faults: Faults): (OrderStore, Result<OrderDto>) {
    var looked := s.(log := s.log + [RepoGetById(orderId)]);
    if orderId !in s.orders then (looked, Err(OrderNotFound))
    else match Step(s.orders[orderId], cmd, now)
      case Err(e) => (looked, Err(e))
      case Ok((rec, ev)) => Commit(looked, rec, [ev], faults)
  }

  /** `create_order`: the address is validated first; the new order is added,
      its `order_created` event published, and its document inserted, a failure
      of the insert being swallowed. */
  function CreateEffect(s: OrderStore, userId: Uuid, address: AddressDto, newId: Uuid, now: Timestamp,
                        faults: Faults): (OrderStore, Result<OrderDto>)
  {
    match NewShippingAddress(address.street, address.city, address.state, address.zipCode, address.country)
    case Err(e) => (s, Err(e))
    case Ok(addr) =>
      var rec := OrderRecord(newId, userId, Pending, addr, [], now, now);
      var written := OrderStore(s.orders[newId := rec], s.readModel,
                                s.log + [RepoAdd(newId)] + PublishCalls([OrderEvent("order_created", newId, now)]));
      match DtoOf(rec)
      case Err(e) => (written, Err(e))
      case Ok(dto) =>
        var log := written.log + [ReadCreate(newId)];
        if faults.readModelDown then (written.(log := log), Ok(dto))
        else (written.(readModel := s.readModel + [ToDoc(dto)], log := log), Ok(dto))
  }

  /** `get_order`: the read model first (its failure is not caught), then the
      write store; nothing is written back. */
  function GetOrderEffect(s: OrderStore, orderId: Uuid, faults: Faults): (OrderStore, Result<Option<OrderDto>>) {
    var asked := s.(log := s.log + [ReadGetById(orderId)]);
    if faults.readModelDown then (asked, Err(ReadModelUnavailable))
    else match FindOne(s.readModel, DocKey, UuidText(orderId))
      case Some(doc) =>
        (asked, match FromDoc(doc) case Err(e) => Err(e) case Ok(d) => Ok(Some(d)))
      case None =>
        var loaded := asked.(log := asked.log + [RepoGetById(orderId)]);
        if orderId !in s.orders then (loaded, Ok(None))
        else (loaded, match DtoOf(s.orders[orderId]) case Err(e) => Err(e) case Ok(d) => Ok(Some(d)))
  }

  // ---------------------------------------------------------------------
  // Properties of the service

  lemma CommitPreservesValid(s: OrderStore, rec: OrderRecord, events: seq<DomainEvent>, faults: Faults)
    requires ValidStore(s) && rec.id in s.orders && ValidRecord(rec)
    ensures ValidStore(Commit(s, rec, events, faults).0)
  {
    var orders := UpdateRow(s.orders, rec);
    UpdateRowSpec(s.orders, rec);
    assert forall id :: id in orders ==> orders[id].id == id && ValidRecord(orders[id]);
    match DtoOf(rec)
    case Err(_) =>
    case Ok(dto) =>
      if !faults.readModelDown {
        var d := ToDoc(dto);
        DocRoundTrip(dto);
        assert DocKey(d) == UuidText(rec.id);
        UpsertSpec(s.readModel, DocKey, d, DocKey(d));
        UpsertMembers(s.readModel, DocKey, DocKey(d), d);
        var r := UpsertDoc(s.readModel, DocKey, DocKey(d), d);
        forall doc | doc in r ensures Canonical(doc) && FromDoc(doc).value.id in orders {
          var i :| 0 <= i < |r| && r[i] == doc;
          assert doc == d || doc in s.readModel;
        }
      }
  }

  /** Every command keeps the store valid. */
  lemma ExecutePreservesValid(s: OrderStore, orderId: Uuid, cmd: OrderCommand, now: Timestamp, faults: Faults)
    requires ValidStore(s)
    ensures ValidStore(Execute(s, orderId, cmd, now, faults).0)
  {
    var looked := s.(log := s.log + [RepoGetById(orderId)]);
    if orderId in s.orders {
      match Step(s.orders[orderId], cmd, now)
      case Err(_) =>
      case Ok((rec, ev)) =>
        StepPreservesValid(s.orders[orderId], cmd, now);
        CommitPreservesValid(looked, rec, [ev], faults);
    }
  }

  /** No document of a valid store is keyed by an id the write store lacks. */
  lemma FreshKeyAbsent(s: OrderStore, newId: Uuid)
    requires ValidStore(s) && newId !in s.orders
    ensures forall i :: 0 <= i < |s.readModel| ==> DocKey(s.readModel[i]) != UuidText(newId)
  {
    forall i | 0 <= i < |s.readModel| ensures DocKey(s.readModel[i]) != UuidText(newId) {
      var doc := s.readModel[i];
      assert Canonical(doc);
      var id := FromDoc(doc).value.id;
      assert DocKey(doc) == UuidText(id);
      UuidTextInjective(id, newId);
    }
  }

  /** The DTO of a new order, which has no items. */
  function NewOrderDto(rec: OrderRecord): OrderDto {
    OrderDto(rec.id, rec.userId, "pending", AddressDtoOf(rec.address), [], 0, "USD", rec.createdAt, rec.updatedAt)
  }

  /** `CreateEffect` after a valid address, in closed form. */
  lemma CreateEffectOk(s: OrderStore, userId: Uuid, address: AddressDto, newId: Uuid, now: Timestamp, faults: Faults,
                       addr: ShippingAddress)
    requires NewShippingAddress(address.street, address.city, address.state, address.zipCode, address.country) == Ok(addr)
    ensures var rec := OrderRecord(newId, userId, Pending, addr, [], now, now);
            var log := s.log + [RepoAdd(newId), Publish("order_created", IdPayload("order_id", newId)), ReadCreate(newId)];
            var rm := if faults.readModelDown then s.readModel else s.readModel + [ToDoc(NewOrderDto(rec))];
            CreateEffect(s, userId, address, newId, now, faults)
            == (OrderStore(s.orders[newId := rec], rm, log), Ok(NewOrderDto(rec)))
  {
    var rec := OrderRecord(newId, userId, Pending, addr, [], now, now);
    EmptyOrderDto(rec);
    var published := PublishCalls([OrderEvent("order_created", newId, now)]);
    assert published == [Publish("order_created", IdPayload("order_id", newId))];
    var log := s.log + [RepoAdd(newId)] + published + [ReadCreate(newId)];
    AppendThree(s.log, RepoAdd(newId), Publish("order_created", IdPayload("order_id", newId)), ReadCreate(newId));
    var written := OrderStore(s.orders[newId := rec], s.readModel, s.log + [RepoAdd(newId)] + published);
    var rm := if faults.readModelDown then s.readModel else s.readModel + [ToDoc(NewOrderDto(rec))];
    assert CreateEffect(s, userId, address, newId, now, faults) == (written.(readModel := rm, log := log), Ok(NewOrderDto(rec)));
  }

  /** A new order has no items, so its DTO exists and totals 0 USD. */
  lemma EmptyOrderDto(rec: OrderRecord)
    requires rec.items == [] && rec.status == Pending
    ensures DtoOf(rec) == Ok(NewOrderDto(rec))
  {
    assert TotalOf(rec.items) == Ok(Money(0, "USD"));
  }

  /** Creating an order keeps the store valid. */
  lemma CreatePreservesValid(s: OrderStore, userId: Uuid, address: AddressDto, newId: Uuid, now: Timestamp, faults: Faults)
    requires ValidStore(s) && newId !in s.orders
    ensures ValidStore(CreateEffect(s, userId, address, newId, now, faults).0)
  {
    var a := NewShippingAddress(address.street, address.city, address.state, address.zipCode, address.country);
    if a.Ok? {
      CreateEffectOk(s, userId, address, newId, now, faults, a.value);
      var rec := OrderRecord(newId, userId, Pending, a.value, [], now, now);
      var log := s.log + [RepoAdd(newId), Publish("order_created", IdPayload("order_id", newId)), ReadCreate(newId)];
      InsertKeepsValid(s, rec, NewOrderDto(rec), log);
    }
  }

  /** Adding a valid row under a new id, with or without its document, keeps
      the store valid. */
  lemma InsertKeepsValid(s: OrderStore, rec: OrderRecord, dto: OrderDto, log: seq<PortCall>)
    requires ValidStore(s) && rec.id !in s.orders && ValidRecord(rec) && dto.id == rec.id
    ensures ValidStore(OrderStore(s.orders[rec.id := rec], s.readModel, log))
    ensures ValidStore(OrderStore(s.orders[rec.id := rec], s.readModel + [ToDoc(dto)], log))
  {
    var orders := s.orders[rec.id := rec];
    assert RowsValid(orders);
    assert DocsValid(s.readModel, orders);
    var d := ToDoc(dto);
    assert DocsValid(s.readModel + [d], orders) by {
      DocRoundTrip(dto);
      assert Canonical(d) && FromDoc(d).value.id in orders;
      FreshKeyAbsent(s, rec.id);
      assert DocKey(d) == UuidText(rec.id);
      UniqueKeysAppend(s.readModel, DocKey, d);
      assert forall doc :: doc in s.readModel + [d] ==> doc in s.readModel || doc == d;
    }
  }

  /** Once the address is valid the order exists, pending and empty, with a
      total of 0 USD; `order_created` is published after the insert. */
  lemma CreateSpec(s: OrderStore, userId: Uuid, address: AddressDto, newId: Uuid, now: Timestamp, faults: Faults)
    ensures var res := CreateEffect(s, userId, address, newId, now, faults);
            var addr := NewShippingAddress(address.street, address.city, address.state, address.zipCode, address.country);
            (addr.Err? ==> res == (s, Err(addr.error)))
            && (addr.Ok? ==>
                  res.1.Ok? && res.1.value.id == newId && res.1.value.status == "pending"
                  && res.1.value.items == [] && res.1.value.totalAmount == 0 && res.1.value.totalCurrency == "USD"
                  && res.0.orders == s.orders[newId := OrderRecord(newId, userId, Pending, addr.value, [], now, now)]
                  && res.0.log == s.log + [RepoAdd(newId), Publish("order_created", IdPayload("order_id", newId)),
                                           ReadCreate(newId)])
  {
    var a := NewShippingAddress(address.street, address.city, address.state, address.zipCode, address.country);
    if a.Ok? {
      CreateEffectOk(s, userId, address, newId, now, faults, a.value);
    }
  }

  /** Every command first loads the order. An unknown order and a step the
      aggregate refuses write nothing. Otherwise the stored row becomes the
      stepped record and its event is published, and only then is the DTO
      built: a DTO that fails (items in two currencies) fails after the write. */
  lemma ExecuteSpec(s: OrderStore, orderId: Uuid, cmd: OrderCommand, now: Timestamp, faults: Faults)
    requires ValidStore(s)
    ensures var res := Execute(s, orderId, cmd, now, faults);
            |res.0.log| > |s.log| && res.0.log[..|s.log| + 1] == s.log + [RepoGetById(orderId)]
    ensures orderId !in s.orders ==>
              Execute(s, orderId, cmd, now, faults) == (s.(log := s.log + [RepoGetById(orderId)]), Err(OrderNotFound))
    ensures orderId in s.orders && Step(s.orders[orderId], cmd, now).Err? ==>
              Execute(s, orderId, cmd, now, faults)
              == (s.(log := s.log + [RepoGetById(orderId)]), Err(Step(s.orders[orderId], cmd, now).error))
    ensures orderId in s.orders && Step(s.orders[orderId], cmd, now).Ok? ==>
              var res := Execute(s, orderId, cmd, now, faults);
              var (rec, ev) := Step(s.orders[orderId], cmd, now).value;
              res.0.orders == s.orders[orderId := rec]
              && res.1 == DtoOf(rec)
              && res.0.log == s.log + [RepoGetById(orderId), RepoUpdate(orderId), Publish(ev.eventType, ev.data)]
                              + (if res.1.Ok? then [ReadUpdate(orderId)] else [])
              && res.0.log[..|s.log| + 3] == s.log + [RepoGetById(orderId), RepoUpdate(orderId), Publish(ev.eventType, ev.data)]
              && (res.1.Err? ==> res.0.readModel == s.readModel)
  {
    if orderId in s.orders && Step(s.orders[orderId], cmd, now).Ok? {
      ExecuteOk(s, orderId, cmd, now, faults);
    }
  }

  /** The successful branch of `ExecuteSpec`. */
  lemma ExecuteOk(s: OrderStore, orderId: Uuid, cmd: OrderCommand, now: Timestamp, faults: Faults)
    requires ValidStore(s) && orderId in s.orders && Step(s.orders[orderId], cmd, now).Ok?
    ensures var res := Execute(s, orderId, cmd, now, faults);
            var (rec, ev) := Step(s.orders[orderId], cmd, now).value;
            res.0.orders == s.orders[orderId := rec]
            && res.1 == DtoOf(rec)
            && res.0.log == s.log + [RepoGetById(orderId), RepoUpdate(orderId), Publish(ev.eventType, ev.data)]
                            + (if res.1.Ok? then [ReadUpdate(orderId)] else [])
            && |res.0.log| > |s.log| + 2
            && res.0.log[..|s.log| + 3] == s.log + [RepoGetById(orderId), RepoUpdate(orderId), Publish(ev.eventType, ev.data)]
            && res.0.log[..|s.log| + 1] == s.log + [RepoGetById(orderId)]
            && (res.1.Err? ==> res.0.readModel == s.readModel)
  {
    var (rec, ev) := Step(s.orders[orderId], cmd, now).value;
    var looked := s.(log := s.log + [RepoGetById(orderId)]);
    var res := Commit(looked, rec, [ev], faults);
    assert Execute(s, orderId, cmd, now, faults) == res;
    StepPreservesValid(s.orders[orderId], cmd, now);
    CommitShape(looked, rec, [ev], faults);
    var written := s.log + [RepoGetById(orderId), RepoUpdate(orderId), Publish(ev.eventType, ev.data)];
    assert PublishCalls([ev]) == [Publish(ev.eventType, ev.data)];
    AppendThree(s.log, RepoGetById(orderId), RepoUpdate(orderId), Publish(ev.eventType, ev.data));
    assert looked.log + [RepoUpdate(rec.id)] + PublishCalls([ev]) == written;
    assert res.0.log == written + (if res.1.Ok? then [ReadUpdate(orderId)] else []);
    assert res.0.log[..|s.log| + 3] == written;
    assert res.0.log[..|s.log| + 1] == written[..|s.log| + 1];
  }

  /** What `Commit` writes whatever the faults: the row, then the update, the
      events in order and, only for a DTO that converts, the read-model update
      last; nothing else is called, and a failing DTO leaves the read model alone. */
  lemma CommitShape(s: OrderStore, rec: OrderRecord, events: seq<DomainEvent>, faults: Faults)
    ensures var res := Commit(s, rec, events, faults);
            var written := s.log + [RepoUpdate(rec.id)] + PublishCalls(events);
            res.0.orders == UpdateRow(s.orders, rec) && res.1 == DtoOf(rec)
            && res.0.log == written + (if res.1.Ok? then [ReadUpdate(rec.id)] else [])
            && |res.0.log| >= |written| && res.0.log[..|written|] == written
            && (res.1.Err? ==> res.0.readModel == s.readModel)
  {
    var written := s.log + [RepoUpdate(rec.id)] + PublishCalls(events);
    if DtoOf(rec).Ok? {
      assert (written + [ReadUpdate(rec.id)])[..|written|] == written;
    }
  }

  /** A failing read-model write changes nothing the caller sees: the result,
      the write store and the calls are those of a run where it succeeds; only
      the read model is left as it was. */
  lemma ReadModelFailureSwallowed(s: OrderStore, orderId: Uuid, cmd: OrderCommand, now: Timestamp, cacheDown: bool)
    ensures var down := Execute(s, orderId, cmd, now, Faults(true, cacheDown));
            var up := Execute(s, orderId, cmd, now, Faults(false, cacheDown));
            down.1 == up.1 && down.0.orders == up.0.orders && down.0.log == up.0.log
            && down.0.readModel == s.readModel
  {
  }

  /** Read-your-writes: after a command whose read-model write succeeds,
      `get_order` returns the DTO the command returned. */
  lemma ReadYourWrites(s: OrderStore, orderId: Uuid, cmd: OrderCommand, now: Timestamp, cacheDown: bool, later: Faults)
    requires ValidStore(s) && !later.readModelDown
    ensures var res := Execute(s, orderId, cmd, now, Faults(false, cacheDown));
            res.1.Ok? ==> GetOrderEffect(res.0, orderId, later).1 == Ok(Some(res.1.value))
  {
    if orderId in s.orders {
      match Step(s.orders[orderId], cmd, now)
      case Err(_) =>
      case Ok((rec, ev)) =>
        StepPreservesValid(s.orders[orderId], cmd, now);
        match DtoOf(rec)
        case Err(_) =>
        case Ok(dto) =>
          var d := ToDoc(dto);
          assert DocKey(d) == UuidText(orderId);
          UpsertSpec(s.readModel, DocKey, d, DocKey(d));
          DocRoundTrip(dto);
    }
  }

  /** After `create_order` with a working read model, `get_order` finds the
      created order's DTO there. */
  lemma CreateReadYourWrites(s: OrderStore, userId: Uuid, address: AddressDto, newId: Uuid, now: Timestamp,
                             cacheDown: bool, later: Faults)
    requires ValidStore(s) && newId !in s.orders && !later.readModelDown
    ensures var res := CreateEffect(s, userId, address, newId, now, Faults(false, cacheDown));
            res.1.Ok? ==> GetOrderEffect(res.0, newId, later).1 == Ok(Some(res.1.value))
  {
    var a := NewShippingAddress(address.street, address.city, address.state, address.zipCode, address.country);
    if a.Ok? {
      CreateEffectOk(s, userId, address, newId, now, Faults(false, cacheDown), a.value);
      var rec := OrderRecord(newId, userId, Pending, a.value, [], now, now);
      var d := ToDoc(NewOrderDto(rec));
      DocRoundTrip(NewOrderDto(rec));
      FreshKeyAbsent(s, newId);
      var r := s.readModel + [d];
      assert forall i :: 0 <= i < |s.readModel| ==> r[i] == s.readModel[i];
      FirstMatchAt(r, DocKey, UuidText(newId), |s.readModel|);
    }
  }

  /** A swallowed read-model failure leaves the read stale: an order that had
      a document is read as it was before the command, whatever the write store
      now holds. */
  lemma StaleReadAfterFailure(s: OrderStore, orderId: Uuid, cmd: OrderCommand, now: Timestamp, cacheDown: bool, later: Faults)
    requires FindOne(s.readModel, DocKey, UuidText(orderId)).Some?
    ensures var res := Execute(s, orderId, cmd, now, Faults(true, cacheDown));
            GetOrderEffect(res.0, orderId, later).1 == GetOrderEffect(s, orderId, later).1
  {
    ReadModelFailureSwallowed(s, orderId, cmd, now, cacheDown);
  }

  /** `get_order` only reads: it leaves both stores as they were. */
  lemma GetOrderReadsOnly(s: OrderStore, orderId: Uuid, faults: Faults)
    ensures var res := GetOrderEffect(s, orderId, faults);
            res.0.orders == s.orders && res.0.readModel == s.readModel && |res.0.log| > |s.log|
    ensures ValidStore(s) ==> ValidStore(GetOrderEffect(s, orderId, faults).0)
  {
  }

  /** The bookkeeping of collecting DTOs: `ks` lists, without repeats, the
      keys done so far, `out` their DTOs, and `remaining` the rest of `keys`. */
  ghost predicate Collected(orders: map<Uuid, OrderRecord>, keys: set<Uuid>, remaining: set<Uuid>,
                            out: seq<OrderDto>, ks: seq<Uuid>)
  {
    keys <= orders.Keys && remaining <= keys
    && |ks| == |out| && |ks| + |remaining| == |keys|
    && (forall i :: 0 <= i < |ks| ==> ks[i] in keys && ks[i] !in remaining && DtoOf(orders[ks[i]]) == Ok(out[i]))
    && (forall i, j :: 0 <= i < j < |ks| ==> ks[i] != ks[j])
    && (forall x :: x in keys ==> x in remaining || x in ks)
  }

  /** One step of collecting DTOs keeps the loop's bookkeeping. */
  lemma DtoStep(orders: map<Uuid, OrderRecord>, keys: set<Uuid>, remaining: set<Uuid>, out: seq<OrderDto>,
                ks: seq<Uuid>, k: Uuid, d: OrderDto)
    requires Collected(orders, keys, remaining, out, ks)
    requires k in remaining && DtoOf(orders[k]) == Ok(d)
    ensures Collected(orders, keys, remaining - {k}, out + [d], ks + [k])
  {
    var ks', out', rem' := ks + [k], out + [d], remaining - {k};
    assert forall i :: 0 <= i < |ks| ==> ks'[i] == ks[i] && out'[i] == out[i];
    assert ks'[|ks|] == k && out'[|ks|] == d;
  }

  /** Once nothing remains, the collected DTOs are those of all of `keys`. */
  lemma CollectedAll(orders: map<Uuid, OrderRecord>, keys: set<Uuid>, out: seq<OrderDto>, ks: seq<Uuid>)
    requires Collected(orders, keys, {}, out, ks)
    ensures |ks| == |out| == |keys|
    ensures forall i :: 0 <= i < |ks| ==> ks[i] in keys && DtoOf(orders[ks[i]]) == Ok(out[i])
    ensures forall i, j :: 0 <= i < j < |ks| ==> ks[i] != ks[j]
    ensures forall k :: k in keys ==> k in ks && DtoOf(orders[k]).Ok?
  {
    forall k | k in keys ensures k in ks && DtoOf(orders[k]).Ok? {
      var i :| 0 <= i < |ks| && ks[i] == k;
    }
  }

  /** The stored orders of one user: `get_by_user_id` on the write store. */
  function UserOrderIds(orders: map<Uuid, OrderRecord>, userId: Uuid): set<Uuid> {
    set k | k in orders && orders[k].userId == userId
  }

  /** `dtos` holds the DTO of every stored order of the user, each once, in
      some order. */
  ghost predicate ListsUserOrders(orders: map<Uuid, OrderRecord>, userId: Uuid, dtos: seq<OrderDto>) {
    |dtos| == |UserOrderIds(orders, userId)|
    && (forall i :: 0 <= i < |dtos| ==>
          exists k :: k in orders && orders[k].userId == userId && DtoOf(orders[k]) == Ok(dtos[i]))
    && (forall k :: k in orders && orders[k].userId == userId ==>
          DtoOf(orders[k]).Ok? && DtoOf(orders[k]).value in dtos)
  }

  lemma CollectedUserOrders(orders: map<Uuid, OrderRecord>, userId: Uuid, ks: seq<Uuid>, dtos: seq<OrderDto>)
    requires var keys := UserOrderIds(orders, userId);
             |ks| == |dtos| == |keys|
             && (forall i :: 0 <= i < |ks| ==> ks[i] in keys && DtoOf(orders[ks[i]]) == Ok(dtos[i]))
             && (forall k :: k in keys ==> k in ks)
    ensures ListsUserOrders(orders, userId, dtos)
  {
    var keys := UserOrderIds(orders, userId);
    forall i | 0 <= i < |dtos|
      ensures exists k :: k in orders && orders[k].userId == userId && DtoOf(orders[k]) == Ok(dtos[i])
    {
      assert ks[i] in keys;
    }
    forall k | k in orders && orders[k].userId == userId
      ensures DtoOf(orders[k]).Ok? && DtoOf(orders[k]).value in dtos
    {
      assert k in keys;
      var i :| 0 <= i < |ks| && ks[i] == k;
      assert DtoOf(orders[k]) == Ok(dtos[i]);
    }
  }

  // ---------------------------------------------------------------------
  // The service

  class OrderApplicationService {
    var orders: map<Uuid, OrderRecord>
    var readModel: seq<OrderDoc>
    var log: seq<PortCall>

    function State(): OrderStore
      reads this
    {
      OrderStore(orders, readModel, log)
    }

    ghost predicate Valid()
      reads this
    {
      ValidStore(State())
    }

    /** A service over empty stores. */
    constructor ()
      ensures Valid() && State() == OrderStore(map[], [], [])
    {
      orders := map[];
      readModel := [];
      log := [];
    }

    /** `_to_dto`, through the aggregate's own `calculate_total`. */
    method ToDto(o: Order) returns (r: Result<OrderDto>)
      ensures r == DtoOf(o.Record())
    {
      var total := o.CalculateTotal();
      if total.Err? {
        return Err(total.error);
      }
      r := Ok(OrderDto(o.id, o.userId, StatusValue(o.status), AddressDtoOf(o.shippingAddress),
                       ItemDtosOf(o.Lines()), total.value.amount, total.value.currency, o.createdAt, o.updatedAt));
    }

    /** The DTO of a stored row, through the aggregate the repository rebuilds. */
    method RowDto(rec: OrderRecord) returns (r: Result<OrderDto>)
      ensures r == DtoOf(rec)
    {
      var o := Order.FromRecord(rec);
      r := ToDto(o);
    }

    /** `OrderRepository.get_by_id`: a fresh aggregate rebuilt from the row. */
    method LoadOrder(orderId: Uuid) returns (o: Order?)
      requires Valid()
      modifies this`log
      ensures log == old(log) + [RepoGetById(orderId)]
      ensures o == null <==> orderId !in orders
      ensures o != null ==> fresh(o) && o.Valid() && o.Record() == orders[orderId] && o.events == []
                            && forall it :: it in o.items ==> fresh(it)
    {
      log := log + [RepoGetById(orderId)];
      if orderId !in orders {
        return null;
      }
      o := Order.FromRecord(orders[orderId]);
    }

    /** The shared tail of the four commands. */
    method Finish(o: Order, faults: Faults) returns (r: Result<OrderDto>)
      modifies this, o`events
      ensures (State(), r) == Commit(old(State()), old(o.Record()), old(o.events), faults)
      ensures o.Record() == old(o.Record())
    {
      ghost var s0, rec, buffered := State(), o.Record(), o.events;
      Save(o);
      ghost var written := State();
      r := ToDto(o);
      if r.Err? {
        assert Commit(s0, rec, buffered, faults) == (written, r);
        return;
      }
      log := log + [ReadUpdate(o.id)];
      if !faults.readModelDown {
        readModel := UpsertDoc(readModel, DocKey, UuidText(o.id), ToDoc(r.value));
      }
      assert Commit(s0, rec, buffered, faults) == (State(), r);
    }

    /** `update` on the write store, then one `publish_event` per buffered event. */
    method Save(o: Order)
      modifies this, o`events
      ensures o.Record() == old(o.Record())
      ensures State() == old(State()).(orders := UpdateRow(old(orders), old(o.Record())),
                                       log := old(log) + [RepoUpdate(o.id)] + PublishCalls(old(o.events)))
    {
      var rec := o.Record();
      orders := UpdateRow(orders, rec);
      log := log + [RepoUpdate(o.id)];
      var events := o.GetDomainEvents();
      assert o.Record() == rec;
      var calls := PublishEach(events);
      log := log + calls;
    }

    /** The tail of `create_order`: `add`, publish, `_to_dto` and the guarded
        read-model `create`, for an order without items. */
    method Insert(o: Order, faults: Faults) returns (dto: OrderDto)
      requires o.items == []
      modifies this, o`events
      ensures DtoOf(old(o.Record())) == Ok(dto) && o.Record() == old(o.Record())
      ensures State() == OrderStore(old(orders)[o.id := o.Record()],
                                    if faults.readModelDown then old(readModel) else old(readModel) + [ToDoc(dto)],
                                    old(log) + [RepoAdd(o.id)] + PublishCalls(old(o.events)) + [ReadCreate(o.id)])
    {
      ghost var rec := o.Record();
      orders := orders[o.id := o.Record()];
      log := log + [RepoAdd(o.id)];
      var events := o.GetDomainEvents();
      var calls := PublishEach(events);
      log := log + calls;
      var r := ToDto(o);
      assert o.Record() == rec && TotalOf(rec.items) == Ok(Money(0, "USD"));
      dto := r.value;
      log := log + [ReadCreate(o.id)];
      if !faults.readModelDown {
        readModel := readModel + [ToDoc(dto)];
      }
    }

    method CreateOrder(userId: Uuid, address: AddressDto, newId: Uuid, now: Timestamp, faults: Faults)
      returns (r: Result<OrderDto>)
      requires Valid() && newId !in orders
      modifies this
      ensures Valid()
      ensures (State(), r) == CreateEffect(old(State()), userId, address, newId, now, faults)
    {
      ghost var s0 := State();
      var addr := NewShippingAddress(address.street, address.city, address.state, address.zipCode, address.country);
      if addr.Err? {
        return Err(addr.error);
      }
      var o := Order.Create(newId, userId, addr.value, now);
      var dto := Insert(o, faults);
      r := Ok(dto);
      assert DtoOf(o.Record()) == Ok(NewOrderDto(o.Record()));
      assert PublishCalls([OrderEvent("order_created", newId, now)]) == [Publish("order_created", IdPayload("order_id", newId))];
      CreateEffectOk(s0, userId, address, newId, now, faults, addr.value);
      CreatePreservesValid(s0, userId, address, newId, now, faults);
    }

    method GetOrder(orderId: Uuid, faults: Faults) returns (r: Result<Option<OrderDto>>)
      requires Valid()
      modifies this`log
      ensures Valid()
      ensures (State(), r) == GetOrderEffect(old(State()), orderId, faults)
    {
      log := log + [ReadGetById(orderId)];
      if faults.readModelDown {
        return Err(ReadModelUnavailable);
      }
      var hit := FindOne(readModel, DocKey, UuidText(orderId));
      if hit.Some? {
        var d := FromDoc(hit.value);
        r := if d.Err? then Err(d.error) else Ok(Some(d.value));
        return;
      }
      var o := LoadOrder(orderId);
      if o == null {
        return Ok(None);
      }
      var dto := ToDto(o);
      r := if dto.Err? then Err(dto.error) else Ok(Some(dto.value));
    }

    /** The aggregate's part of `add_item_to_order`: `Money`, `OrderItem.create`
        and `add_item` on the loaded order. */
    static method AddItemToLoaded(o: Order, productId: Uuid, productName: string, price: int, currency: string,
                                  quantity: int, newItemId: Uuid, now: Timestamp)
      returns (outcome: Outcome)
      requires o.Valid()
      modifies o, set it | it in o.items
      ensures var step := Step(old(o.Record()), AddItemCmd(productId, productName, price, currency, quantity, newItemId), now);
              (outcome.Fail? ==> step == Err(outcome.error))
              && (outcome.Pass? ==> step == Ok((o.Record(), ItemEvent("order_item_added", o.id, newItemId, now)))
                                    && o.events == old(o.events) + [ItemEvent("order_item_added", o.id, newItemId, now)])
    {
      ghost var rec0 := o.Record();
      ghost var cmd := AddItemCmd(productId, productName, price, currency, quantity, newItemId);
      var money := NewMoney(price, currency);
      if money.Err? {
        assert Step(rec0, cmd, now) == Err(money.error);
        return Fail(money.error);
      }
      var item := OrderItem.Create(newItemId, productId, productName, money.value, quantity);
      if item.Err? {
        assert Step(rec0, cmd, now) == Err(item.error);
        return Fail(item.error);
      }
      ghost var line := item.value.Line();
      outcome := o.AddItem(item.value, now);
      if outcome.Fail? {
        assert Step(rec0, cmd, now) == Err(outcome.error);
        return;
      }
      assert o.Record() == rec0.(items := MergeLine(rec0.items, line), updatedAt := now);
    }

    /** `order.remove_item(...)` on the loaded aggregate, as `Step` states it. */
    static method RemoveItemFromLoaded(o: Order, itemId: Uuid, now: Timestamp) returns (outcome: Outcome)
      requires o.Valid()
      modifies o
      ensures var step := Step(old(o.Record()), RemoveItemCmd(itemId), now);
              (outcome.Fail? ==> step == Err(outcome.error))
              && (outcome.Pass? ==> step == Ok((o.Record(), ItemEvent("order_item_removed", o.id, itemId, now)))
                                    && o.events == old(o.events) + [ItemEvent("order_item_removed", o.id, itemId, now)])
    {
      ghost var rec0 := o.Record();
      outcome := o.RemoveItem(itemId, now);
      if outcome.Fail? {
        assert Step(rec0, RemoveItemCmd(itemId), now) == Err(outcome.error);
        return;
      }
      assert o.Record() == rec0.(items := RemoveAt(rec0.items, FindItem(rec0.items, itemId).value), updatedAt := now);
    }

    method AddItemToOrder(orderId: Uuid, productId: Uuid, productName: string, price: int, currency: string,
                          quantity: int, newItemId: Uuid, now: Timestamp, faults: Faults)
      returns (r: Result<OrderDto>)
      requires Valid()
      modifies this
      ensures Valid()
      ensures (State(), r) == Execute(old(State()), orderId,
                                      AddItemCmd(productId, productName, price, currency, quantity, newItemId),
                                      now, faults)
    {
      ghost var s0 := State();
      ghost var cmd := AddItemCmd(productId, productName, price, currency, quantity, newItemId);
      var o := LoadOrder(orderId);
      if o == null {
        ExecutePreservesValid(s0, orderId, cmd, now, faults);
        return Err(OrderNotFound);
      }
      var outcome := AddItemToLoaded(o, productId, productName, price, currency, quantity, newItemId, now);
      if outcome.Fail? {
        return Err(outcome.error);
      }
      r := Finish(o, faults);
      ExecutePreservesValid(s0, orderId, cmd, now, faults);
    }

    method RemoveItemFromOrder(orderId: Uuid, itemId: Uuid, now: Timestamp, faults: Faults)
      returns (r: Result<OrderDto>)
      requires Valid()
      modifies this
      ensures Valid()
      ensures (State(), r) == Execute(old(State()), orderId, RemoveItemCmd(itemId), now, faults)
    {
      ghost var s0 := State();
      var o := LoadOrder(orderId);
      if o == null {
        ExecutePreservesValid(s0, orderId, RemoveItemCmd(itemId), now, faults);
        return Err(OrderNotFound);
      }
      var outcome := RemoveItemFromLoaded(o, itemId, now);
      if outcome.Fail? {
        return Err(outcome.error);
      }
      r := Finish(o, faults);
      ExecutePreservesValid(s0, orderId, RemoveItemCmd(itemId), now, faults);
    }

    method ConfirmOrder(orderId: Uuid, now: Timestamp, faults: Faults) returns (r: Result<OrderDto>)
      requires Valid()
      modifies this
      ensures Valid()
      ensures (State(), r) == Execute(old(State()), orderId, ConfirmCmd, now, faults)
    {
      ghost var s0 := State();
      var o := LoadOrder(orderId);
      if o == null {
        ExecutePreservesValid(s0, orderId, ConfirmCmd, now, faults);
        return Err(OrderNotFound);
      }
      ghost var rec0 := o.Record();
      var outcome := o.Confirm(now);
      if outcome.Fail? {
        assert Step(rec0, ConfirmCmd, now) == Err(outcome.error);
        return Err(outcome.error);
      }
      assert o.Record() == rec0.(status := Confirmed, updatedAt := now);
      r := Finish(o, faults);
      ExecutePreservesValid(s0, orderId, ConfirmCmd, now, faults);
    }

    method CancelOrder(orderId: Uuid, now: Timestamp, faults: Faults) returns (r: Result<OrderDto>)
      requires Valid()
      modifies this
      ensures Valid()
      ensures (State(), r) == Execute(old(State()), orderId, CancelCmd, now, faults)
    {
      ghost var s0 := State();
      var o := LoadOrder(orderId);
      if o == null {
        ExecutePreservesValid(s0, orderId, CancelCmd, now, faults);
        return Err(OrderNotFound);
      }
      ghost var rec0 := o.Record();
      var outcome := o.Cancel(now);
      if outcome.Fail? {
        assert Step(rec0, CancelCmd, now) == Err(outcome.error);
        return Err(outcome.error);
      }
      assert o.Record() == rec0.(status := Cancelled, updatedAt := now);
      r := Finish(o, faults);
      ExecutePreservesValid(s0, orderId, CancelCmd, now, faults);
    }

    /** The DTOs of the stored orders `keys`, in an unspecified order; `ks`
        lists the order chosen. The first failing DTO raises. */
    method CollectDtos(keys: set<Uuid>) returns (r: Result<seq<OrderDto>>, ghost ks: seq<Uuid>)
      requires keys <= orders.Keys
      ensures r.Err? <==> exists k :: k in keys && DtoOf(orders[k]).Err?
      ensures r.Ok? ==> |ks| == |r.value| == |keys|
                        && (forall i :: 0 <= i < |ks| ==> ks[i] in keys && DtoOf(orders[ks[i]]) == Ok(r.value[i]))
                        && (forall i, j :: 0 <= i < j < |ks| ==> ks[i] != ks[j])
                        && (forall k :: k in keys ==> k in ks)
    {
      var rows := orders;
      var remaining := keys;
      var out: seq<OrderDto> := [];
      ks := [];
      while remaining != {}
        invariant rows == orders
        invariant Collected(rows, keys, remaining, out, ks)
        decreases |remaining|
      {
        var k :| k in remaining;
        var d := RowDto(rows[k]);
        if d.Err? {
          assert k in keys && DtoOf(rows[k]).Err?;
          return Err(d.error), ks;
        }
        DtoStep(rows, keys, remaining, out, ks, k, d.value);
        out := out + [d.value];
        ks := ks + [k];
        remaining := remaining - {k};
      }
      CollectedAll(rows, keys, out, ks);
      return Ok(out), ks;
    }

    /** `get_orders_by_user`: the user's documents if there are any, otherwise
        every stored order of the user, in the store's (unspecified) order. */
    method GetOrdersByUser(userId: Uuid, faults: Faults) returns (r: Result<seq<OrderDto>>)
      modifies this`log
      ensures orders == old(orders) && readModel == old(readModel)
      ensures faults.readModelDown ==> r == Err(ReadModelUnavailable) && log == old(log) + [ReadGetByUser(userId)]
      ensures !faults.readModelDown && FindAll(readModel, UserKey, UuidText(userId)) != [] ==>
                r == DocsToDtos(FindAll(readModel, UserKey, UuidText(userId)))
                && log == old(log) + [ReadGetByUser(userId)]
      ensures !faults.readModelDown && FindAll(readModel, UserKey, UuidText(userId)) == [] ==>
                log == old(log) + [ReadGetByUser(userId), RepoGetByUser(userId)]
                && (r.Err? <==> exists k :: k in orders && orders[k].userId == userId && DtoOf(orders[k]).Err?)
                && (r.Ok? ==> ListsUserOrders(orders, userId, r.value))
    {
      log := log + [ReadGetByUser(userId)];
      if faults.readModelDown {
        return Err(ReadModelUnavailable);
      }
      var docs := FindAll(readModel, UserKey, UuidText(userId));
      if docs != [] {
        return DocsToDtos(docs);
      }
      log := log + [RepoGetByUser(userId)];
      var keys := UserOrderIds(orders, userId);
      ghost var ks;
      r, ks := CollectDtos(keys);
      if r.Ok? {
        CollectedUserOrders(orders, userId, ks, r.value);
      }
    }
  }
}
