/**
 * The Order aggregate (src/domain/orders/entities.py).
 *
 * `OrderItem` and `Order` are mutable dataclasses, so they are classes here.
 * Each method is proved against pure functions over `ItemLine` values (a
 * snapshot of an item) and `OrderRecord` values (a snapshot of an order, the
 * row the write store keeps); the properties of the aggregate are lemmas about
 * those functions.
 */
module OrderEntities {
  import opened Common
  import opened Text
  import opened Events
  import opened OrderValues

  /** The value of an `OrderItem`. */
  datatype ItemLine = ItemLine(id: Uuid, productId: Uuid, productName: string, price: Money, quantity: int)

  /** The value of an `Order` without its event buffer; also the write-store row. */
  datatype OrderRecord = OrderRecord(
    id: Uuid, userId: Uuid, status: OrderStatus, address: ShippingAddress,
    items: seq<ItemLine>, createdAt: Timestamp, updatedAt: Timestamp)

  /** An item as `OrderItem.create` and the merge of `add_item` leave it. */
  predicate ValidLine(l: ItemLine) {
    l.quantity > 0 && ValidMoney(l.price) && !IsBlank(l.productName)
  }

  predicate UniqueProducts(lines: seq<ItemLine>) {
    forall i, j :: 0 <= i < j < |lines| ==> lines[i].productId != lines[j].productId
  }

  /** The write-store rows the services keep: what the aggregate's methods preserve. */
  predicate ValidRecord(r: OrderRecord) {
    UniqueProducts(r.items) && forall i :: 0 <= i < |r.items| ==> ValidLine(r.items[i])
  }

  // ---------------------------------------------------------------------
  // Searches: `next((i for i in self.items if ...), None)`

  /** The first line with the given product id. */
  function FindProduct(lines: seq<ItemLine>, productId: Uuid): (r: Option<nat>)
    ensures r.Some? ==> r.value < |lines| && lines[r.value].productId == productId
    ensures r.Some? ==> forall j :: 0 <= j < r.value ==> lines[j].productId != productId
    ensures r.None? ==> forall j :: 0 <= j < |lines| ==> lines[j].productId != productId
  {
    if lines == [] then None
    else if lines[0].productId == productId then Some(0)
    else match FindProduct(lines[1..], productId)
      case None => None
      case Some(k) => Some(k + 1)
  }

  /** The first line with the given item id (items compare equal by id). */
  function FindItem(lines: seq<ItemLine>, itemId: Uuid): (r: Option<nat>)
    ensures r.Some? ==> r.value < |lines| && lines[r.value].id == itemId
    ensures r.Some? ==> forall j :: 0 <= j < r.value ==> lines[j].id != itemId
    ensures r.None? ==> forall j :: 0 <= j < |lines| ==> lines[j].id != itemId
  {
    if lines == [] then None
    else if lines[0].id == itemId then Some(0)
    else match FindItem(lines[1..], itemId)
      case None => None
      case Some(k) => Some(k + 1)
  }

  // ---------------------------------------------------------------------
  // The item list after add_item and remove_item

  /** `add_item`'s list update: merge into the line of the same product, else append. */
  function MergeLine(lines: seq<ItemLine>, line: ItemLine): seq<ItemLine> {
    match FindProduct(lines, line.productId)
    case Some(k) => lines[k := lines[k].(quantity := lines[k].quantity + line.quantity)]
    case None => lines + [line]
  }

  /** `remove_item`'s list update. */
  function RemoveAt(lines: seq<ItemLine>, k: nat): seq<ItemLine>
    requires k < |lines|
  {
    lines[..k] + lines[k + 1..]
  }

  /** Total quantity ordered of one product. */
  function QuantityOf(lines: seq<ItemLine>, productId: Uuid): int {
    if lines == [] then 0
    else (if lines[0].productId == productId then lines[0].quantity else 0) + QuantityOf(lines[1..], productId)
  }

  /** The products an order lists. */
  function Products(lines: seq<ItemLine>): set<Uuid> {
    set i | 0 <= i < |lines| :: lines[i].productId
  }

  lemma {:induction false} QuantityOfAppend(lines: seq<ItemLine>, x: ItemLine, productId: Uuid)
    ensures QuantityOf(lines + [x], productId)
            == QuantityOf(lines, productId) + (if x.productId == productId then x.quantity else 0)
  {
    if lines != [] {
      assert (lines + [x])[1..] == lines[1..] + [x];
      QuantityOfAppend(lines[1..], x, productId);
    }
  }

  lemma {:induction false} QuantityOfUpdate(lines: seq<ItemLine>, k: nat, x: ItemLine, productId: Uuid)
    requires k < |lines|
    ensures QuantityOf(lines[k := x], productId)
            == QuantityOf(lines, productId)
               - (if lines[k].productId == productId then lines[k].quantity else 0)
               + (if x.productId == productId then x.quantity else 0)
  {
    if k > 0 {
      assert lines[k := x][1..] == lines[1..][k - 1 := x];
      QuantityOfUpdate(lines[1..], k - 1, x, productId);
    } else {
      assert lines[k := x][1..] == lines[1..];
    }
  }

  /** Adding a line adds its quantity to its product and to nothing else; no
      product is ever listed twice; the products are the old ones plus the new. */
  lemma MergeLineSpec(lines: seq<ItemLine>, line: ItemLine, productId: Uuid)
    requires UniqueProducts(lines)
    ensures UniqueProducts(MergeLine(lines, line))
    ensures Products(MergeLine(lines, line)) == Products(lines) + {line.productId}
    ensures QuantityOf(MergeLine(lines, line), productId)
            == QuantityOf(lines, productId) + (if productId == line.productId then line.quantity else 0)
    ensures line.productId in Products(lines) <==> |MergeLine(lines, line)| == |lines|
    ensures line.productId !in Products(lines) <==> MergeLine(lines, line) == lines + [line]
  {
    var r := MergeLine(lines, line);
    match FindProduct(lines, line.productId)
    case Some(k) =>
      QuantityOfUpdate(lines, k, lines[k].(quantity := lines[k].quantity + line.quantity), productId);
      assert forall i :: 0 <= i < |r| ==> r[i].productId == lines[i].productId;
      assert line.productId in Products(lines) by { assert lines[k].productId == line.productId; }
      assert |r| == |lines| && r != lines + [line];
    case None =>
      QuantityOfAppend(lines, line, productId);
      assert r[|lines|] == line;
      assert Products(r) == Products(lines) + {line.productId} by {
        forall p | p in Products(r) ensures p in Products(lines) + {line.productId} {
          var i :| 0 <= i < |r| && r[i].productId == p;
          if i < |lines| { assert lines[i].productId == p; }
        }
        forall p | p in Products(lines) ensures p in Products(r) {
          var i :| 0 <= i < |lines| && lines[i].productId == p;
          assert r[i].productId == p;
        }
        assert r[|lines|].productId == line.productId;
      }
  }

  /** Merging a valid line into valid lines leaves valid lines: a merged
      quantity is a sum of positive quantities. */
  lemma MergeLineValid(lines: seq<ItemLine>, line: ItemLine)
    requires AllValid(lines) && ValidLine(line)
    ensures AllValid(MergeLine(lines, line))
  {
    var r := MergeLine(lines, line);
    match FindProduct(lines, line.productId)
    case None =>
      assert forall i :: 0 <= i < |r| ==> r[i] == (if i < |lines| then lines[i] else line);
    case Some(k) =>
      assert forall i :: 0 <= i < |r| && i != k ==> r[i] == lines[i];
  }

  /** Removing the item at `k` keeps every other item, in order, and keeps
      product ids unique. */
  lemma RemoveAtSpec(lines: seq<ItemLine>, k: nat)
    requires k < |lines| && UniqueProducts(lines)
    ensures |RemoveAt(lines, k)| == |lines| - 1
    ensures forall i :: 0 <= i < k ==> RemoveAt(lines, k)[i] == lines[i]
    ensures forall i :: k <= i < |lines| - 1 ==> RemoveAt(lines, k)[i] == lines[i + 1]
    ensures UniqueProducts(RemoveAt(lines, k))
    ensures multiset(RemoveAt(lines, k)) + multiset{lines[k]} == multiset(lines)
    ensures AllValid(lines) ==> AllValid(RemoveAt(lines, k))
  {
    var r := RemoveAt(lines, k);
    assert lines == lines[..k] + [lines[k]] + lines[k + 1..];
    forall i, j | 0 <= i < j < |r| ensures r[i].productId != r[j].productId {
      var i' := if i < k then i else i + 1;
      var j' := if j < k then j else j + 1;
      assert r[i] == lines[i'] && r[j] == lines[j'];
    }
  }

  // ---------------------------------------------------------------------
  // Guards of the mutators, in the order the source checks them

  function AddItemCheck(status: OrderStatus, lines: seq<ItemLine>, line: ItemLine): Outcome {
    if status != Pending then Fail(OrderCannotBeModified)
    else match FindProduct(lines, line.productId)
      case Some(k) =>
        if lines[k].quantity + line.quantity <= 0 then Fail(InvalidOrderData(NonPositiveQuantity)) else Pass
      case None => Pass
  }

  function RemoveItemCheck(status: OrderStatus, lines: seq<ItemLine>, itemId: Uuid): Outcome {
    if status != Pending then Fail(OrderCannotBeModified)
    else if FindItem(lines, itemId).None? then Fail(OrderItemNotFound)
    else Pass
  }

  function ConfirmCheck(status: OrderStatus, lines: seq<ItemLine>): Outcome {
    if status != Pending then Fail(OrderCannotBeModified)
    else if lines == [] then Fail(InvalidOrderData(NoItems))
    else Pass
  }

  function CancelCheck(status: OrderStatus): Outcome {
    if status == Delivered || status == Cancelled then Fail(OrderCannotBeModified) else Pass
  }

  /** Only a pending order can change its items or be confirmed; every status but
      delivered and cancelled can be cancelled; confirming needs an item. */
  lemma MutatorGuards(status: OrderStatus, lines: seq<ItemLine>, line: ItemLine, itemId: Uuid)
    ensures status != Pending ==>
              AddItemCheck(status, lines, line) == Fail(OrderCannotBeModified)
              && RemoveItemCheck(status, lines, itemId) == Fail(OrderCannotBeModified)
              && ConfirmCheck(status, lines) == Fail(OrderCannotBeModified)
    ensures ConfirmCheck(status, lines).Pass? <==> status == Pending && |lines| > 0
    ensures CancelCheck(status).Fail? <==> status in {Delivered, Cancelled}
    ensures status == Pending && line.quantity > 0 && (forall i :: 0 <= i < |lines| ==> lines[i].quantity > 0)
            ==> AddItemCheck(status, lines, line) == Pass
  {
  }

  // ---------------------------------------------------------------------
  // The order total

  /** `item.calculate_total()`: price times quantity. */
  function LineTotal(l: ItemLine): Result<Money> {
    Mul(l.price, l.quantity)
  }

  /** The loop of `calculate_total`, from accumulator `acc`; the first failing
      step raises. */
  function SumFrom(acc: Money, lines: seq<ItemLine>): Result<Money>
    decreases |lines|
  {
    if lines == [] then Ok(acc)
    else match LineTotal(lines[0])
      case Err(e) => Err(e)
      case Ok(t) =>
        match Add(acc, t)
        case Err(e) => Err(e)
        case Ok(a) => SumFrom(a, lines[1..])
  }

  /** `Order.calculate_total()`. */
  function TotalOf(lines: seq<ItemLine>): Result<Money> {
    if lines == [] then Ok(Money(0, "USD"))
    else SumFrom(Money(0, lines[0].price.currency), lines)
  }

  /** Sum of price times quantity. */
  function Subtotal(lines: seq<ItemLine>): int {
    if lines == [] then 0 else lines[0].price.amount * lines[0].quantity + Subtotal(lines[1..])
  }

  predicate AllInCurrency(lines: seq<ItemLine>, c: string) {
    forall i :: 0 <= i < |lines| ==> lines[i].price.currency == c
  }

  predicate AllValid(lines: seq<ItemLine>) {
    forall i :: 0 <= i < |lines| ==> ValidLine(lines[i])
  }

  lemma {:induction false} SumFromHomogeneous(acc: Money, lines: seq<ItemLine>)
    requires ValidMoney(acc) && AllValid(lines) && AllInCurrency(lines, acc.currency)
    ensures SumFrom(acc, lines) == Ok(Money(acc.amount + Subtotal(lines), acc.currency))
    decreases |lines|
  {
    if lines != [] {
      var l := lines[0];
      MulNonNegative(l.price, l.quantity);
      var a := Money(acc.amount + l.price.amount * l.quantity, acc.currency);
      assert Add(acc, Money(l.price.amount * l.quantity, l.price.currency)) == Ok(a);
      SumFromHomogeneous(a, lines[1..]);
    }
  }

  lemma {:induction false} SumFromMixed(acc: Money, lines: seq<ItemLine>, j: nat)
    requires ValidMoney(acc) && AllValid(lines)
    requires j < |lines| && lines[j].price.currency != acc.currency
    ensures SumFrom(acc, lines) == Err(ValueError(CurrencyMismatch))
    decreases |lines|
  {
    var l := lines[0];
    MulNonNegative(l.price, l.quantity);
    if l.price.currency == acc.currency {
      var a := Money(acc.amount + l.price.amount * l.quantity, acc.currency);
      assert Add(acc, Money(l.price.amount * l.quantity, l.price.currency)) == Ok(a);
      SumFromMixed(a, lines[1..], j - 1);
    }
  }

  /** An empty order totals 0 USD; otherwise the total is the sum of price times
      quantity in the first item's currency, and it fails exactly when some item
      has another currency. */
  lemma TotalOfSpec(lines: seq<ItemLine>)
    requires AllValid(lines)
    ensures lines == [] ==> TotalOf(lines) == Ok(Money(0, "USD"))
    ensures lines != [] ==>
              (TotalOf(lines).Ok? <==> AllInCurrency(lines, lines[0].price.currency))
    ensures lines != [] && TotalOf(lines).Ok? ==>
              TotalOf(lines) == Ok(Money(Subtotal(lines), lines[0].price.currency))
    ensures TotalOf(lines).Err? ==> TotalOf(lines) == Err(ValueError(CurrencyMismatch))
  {
    if lines != [] {
      var c := lines[0].price.currency;
      if AllInCurrency(lines, c) {
        SumFromHomogeneous(Money(0, c), lines);
      } else {
        var j :| 0 <= j < |lines| && lines[j].price.currency != c;
        SumFromMixed(Money(0, c), lines, j);
      }
    }
  }

  // ---------------------------------------------------------------------
  // Events

  function OrderEvent(eventType: string, orderId: Uuid, now: Timestamp): DomainEvent {
    DomainEvent(eventType, IdPayload("order_id", orderId), now)
  }

  function ItemEvent(eventType: string, orderId: Uuid, itemId: Uuid, now: Timestamp): DomainEvent {
    DomainEvent(eventType, map["order_id" := PyStr(UuidText(orderId)), "item_id" := PyStr(UuidText(itemId))], now)
  }

  // ---------------------------------------------------------------------
  // Item creation

  /** `OrderItem.create`: a blank name is rejected first, then a quantity <= 0;
      the stored name is the stripped one. */
  function NewItemLine(id: Uuid, productId: Uuid, productName: string, price: Money, quantity: int)
    : (r: Result<ItemLine>)
    ensures r.Ok? <==> !IsBlank(productName) && quantity > 0
    ensures IsBlank(productName) ==> r == Err(InvalidOrderData(EmptyProductName))
    ensures !IsBlank(productName) && quantity <= 0 ==> r == Err(InvalidOrderData(NonPositiveQuantity))
    ensures r.Ok? ==> r.value.productName == Strip(productName) && !IsBlank(r.value.productName)
                      && r.value.quantity == quantity && r.value.price == price
                      && r.value.id == id && r.value.productId == productId
    ensures r.Ok? && ValidMoney(price) ==> ValidLine(r.value)
  {
    var name := Strip(productName);
    StripEmptyIffBlank(productName);
    if productName == [] || name == [] then Err(InvalidOrderData(EmptyProductName))
    else if quantity <= 0 then Err(InvalidOrderData(NonPositiveQuantity))
    else
      StripOfNonBlank(productName);
      assert !IsBlank(name);
      Ok(ItemLine(id, productId, name, price, quantity))
  }

  class OrderItem {
    const id: Uuid
    const productId: Uuid
    const productName: string
    const price: Money
    var quantity: int

    /** The dataclass constructor: no validation. */
    constructor (id: Uuid, productId: Uuid, productName: string, price: Money, quantity: int)
      ensures Line() == ItemLine(id, productId, productName, price, quantity)
    {
      this.id := id;
      this.productId := productId;
      this.productName := productName;
      this.price := price;
      this.quantity := quantity;
    }

    function Line(): ItemLine
      reads this
    {
      ItemLine(id, productId, productName, price, quantity)
    }

    static method Create(id: Uuid, productId: Uuid, productName: string, price: Money, quantity: int)
      returns (r: Result<OrderItem>)
      ensures r.Ok? <==> NewItemLine(id, productId, productName, price, quantity).Ok?
      ensures r.Err? ==> r.error == NewItemLine(id, productId, productName, price, quantity).error
      ensures r.Ok? ==> fresh(r.value)
                        && r.value.Line() == NewItemLine(id, productId, productName, price, quantity).value
    {
      var line := NewItemLine(id, productId, productName, price, quantity);
      if line.Err? {
        return Err(line.error);
      }
      var item := new OrderItem(id, productId, line.value.productName, price, quantity);
      return Ok(item);
    }

    /** `update_quantity`: a quantity <= 0 raises and leaves the item as it was. */
    method UpdateQuantity(newQuantity: int) returns (o: Outcome)
      modifies this
      ensures o == (if newQuantity > 0 then Pass else Fail(InvalidOrderData(NonPositiveQuantity)))
      ensures quantity == (if newQuantity > 0 then newQuantity else old(quantity))
    {
      if newQuantity <= 0 {
        return Fail(InvalidOrderData(NonPositiveQuantity));
      }
      quantity := newQuantity;
      return Pass;
    }

    /** `calculate_total`. */
    function Total(): Result<Money>
      reads this
    {
      LineTotal(Line())
    }

    /** `__eq__`: items are equal when their ids are. */
    predicate Equals(other: OrderItem) {
      id == other.id
    }
  }

  /** The values of a list of item objects. */
  function LinesOf(items: seq<OrderItem>): (r: seq<ItemLine>)
    reads items
    ensures |r| == |items|
    ensures forall i :: 0 <= i < |items| ==> r[i] == items[i].Line()
  {
    if items == [] then [] else [items[0].Line()] + LinesOf(items[1..])
  }

  /** No two item objects are for the same product (product ids never change). */
  predicate DistinctProducts(items: seq<OrderItem>) {
    forall i, j :: 0 <= i < j < |items| ==> items[i].productId != items[j].productId
  }

  /** Dropping one object drops its line and keeps the others in order. */
  lemma LinesOfRemove(objs: seq<OrderItem>, k: nat)
    requires k < |objs|
    ensures LinesOf(objs[..k] + objs[k + 1..]) == RemoveAt(LinesOf(objs), k)
  {
    var rest := objs[..k] + objs[k + 1..];
    var lines := LinesOf(objs);
    var r := LinesOf(rest);
    var want := RemoveAt(lines, k);
    assert |r| == |want|;
    forall i | 0 <= i < |r| ensures r[i] == want[i] {
      if i < k {
        assert rest[i] == objs[i] && want[i] == lines[i];
      } else {
        assert rest[i] == objs[i + 1] && want[i] == lines[i + 1];
      }
    }
  }

  /** Dropping one object keeps the rest distinct by product. */
  lemma DistinctAfterRemove(objs: seq<OrderItem>, k: nat)
    requires k < |objs| && DistinctProducts(objs)
    ensures DistinctProducts(objs[..k] + objs[k + 1..])
  {
    var rest := objs[..k] + objs[k + 1..];
    forall i, j | 0 <= i < j < |rest| ensures rest[i].productId != rest[j].productId {
      var i' := if i < k then i else i + 1;
      var j' := if j < k then j else j + 1;
      assert rest[i] == objs[i'] && rest[j] == objs[j'];
    }
  }

  class Order {
    const id: Uuid
    const userId: Uuid
    var status: OrderStatus
    const shippingAddress: ShippingAddress
    var items: seq<OrderItem>
    const createdAt: Timestamp
    var updatedAt: Timestamp
    var events: seq<DomainEvent>

    /** No product is listed twice (so no item object is listed twice). */
    ghost predicate Valid()
      reads this
    {
      DistinctProducts(items)
    }

    function Lines(): seq<ItemLine>
      reads this`items, items
    {
      LinesOf(items)
    }

    function Record(): OrderRecord
      reads this, items
    {
      OrderRecord(id, userId, status, shippingAddress, LinesOf(items), createdAt, updatedAt)
    }

    /** The dataclass constructor: an empty event buffer. */
    constructor (id: Uuid, userId: Uuid, status: OrderStatus, shippingAddress: ShippingAddress,
                 items: seq<OrderItem>, createdAt: Timestamp, updatedAt: Timestamp)
      ensures this.id == id && this.userId == userId && this.status == status
      ensures this.shippingAddress == shippingAddress && this.items == items
      ensures this.createdAt == createdAt && this.updatedAt == updatedAt && events == []
    {
      this.id := id;
      this.userId := userId;
      this.status := status;
      this.shippingAddress := shippingAddress;
      this.items := items;
      this.createdAt := createdAt;
      this.updatedAt := updatedAt;
      this.events := [];
    }

    /** `Order.create`: pending, no items, one `order_created` event. */
    static method Create(id: Uuid, userId: Uuid, shippingAddress: ShippingAddress, now: Timestamp)
      returns (o: Order)
      ensures fresh(o) && o.Valid() && o.items == []
      ensures o.Record() == OrderRecord(id, userId, Pending, shippingAddress, [], now, now)
      ensures o.events == [OrderEvent("order_created", id, now)]
    {
      o := new Order(id, userId, Pending, shippingAddress, [], now, now);
      o.events := o.events + [OrderEvent("order_created", id, now)];
    }

    /** The write store's `get_by_id` rebuilds the aggregate from its row, with
        fresh item objects and no buffered events. */
    static method FromRecord(rec: OrderRecord) returns (o: Order)
      ensures fresh(o) && o.Record() == rec && o.events == []
      ensures forall it :: it in o.items ==> fresh(it)
      ensures UniqueProducts(rec.items) ==> o.Valid()
    {
      var objs: seq<OrderItem> := [];
      var i := 0;
      while i < |rec.items|
        invariant 0 <= i <= |rec.items|
        invariant |objs| == i
        invariant forall j :: 0 <= j < i ==> objs[j].Line() == rec.items[j]
        invariant forall it :: it in objs ==> fresh(it)
      {
        var l := rec.items[i];
        var it := new OrderItem(l.id, l.productId, l.productName, l.price, l.quantity);
        objs := objs + [it];
        i := i + 1;
      }
      o := new Order(rec.id, rec.userId, rec.status, rec.address, objs, rec.createdAt, rec.updatedAt);
      assert LinesOf(objs) == rec.items;
      if UniqueProducts(rec.items) {
        forall i, j | 0 <= i < j < |objs| ensures objs[i].productId != objs[j].productId {
          assert objs[i].Line().productId == rec.items[i].productId;
          assert objs[j].Line().productId == rec.items[j].productId;
        }
      }
    }

    /** `add_item`: only while pending; merges into the line of the same product
        (through `update_quantity`, which may raise) or appends. */
    method AddItem(item: OrderItem, now: Timestamp) returns (o: Outcome)
      requires Valid()
      modifies this, items
      ensures Valid()
      ensures o == AddItemCheck(old(status), old(Lines()), old(item.Line()))
      ensures o.Pass? ==> Lines() == MergeLine(old(Lines()), old(item.Line()))
                          && updatedAt == now
                          && events == old(events) + [ItemEvent("order_item_added", id, item.id, now)]
      ensures o.Fail? ==> Lines() == old(Lines()) && updatedAt == old(updatedAt) && events == old(events)
      ensures status == old(status)
      ensures forall it :: it in items ==> it in old(items) || it == item
    {
      if status != Pending {
        return Fail(OrderCannotBeModified);
      }
      var found := FindProduct(Lines(), item.productId);
      if found.Some? {
        var r := MergeInto(found.value, item);
        if r.Fail? {
          return r;
        }
      } else {
        AppendItem(item);
      }
      updatedAt := now;
      events := events + [ItemEvent("order_item_added", id, item.id, now)];
      return Pass;
    }

    /** The new-product branch of `add_item`: the item joins the end of the list. */
    method AppendItem(item: OrderItem)
      requires Valid() && FindProduct(Lines(), item.productId).None?
      modifies this`items
      ensures Valid()
      ensures items == old(items) + [item]
      ensures Lines() == MergeLine(old(Lines()), old(item.Line()))
    {
      ghost var before := Lines();
      assert forall j :: 0 <= j < |items| ==> items[j].productId == before[j].productId;
      items := items + [item];
      assert Lines() == before + [item.Line()];
    }

    /** The merge branch of `add_item`: `update_quantity` on the existing line. */
    method MergeInto(k: nat, item: OrderItem) returns (o: Outcome)
      requires Valid() && status == Pending && FindProduct(Lines(), item.productId) == Some(k)
      modifies items[k]
      ensures o == AddItemCheck(Pending, old(Lines()), old(item.Line()))
      ensures Lines() == if o.Pass? then MergeLine(old(Lines()), old(item.Line())) else old(Lines())
    {
      ghost var before := Lines();
      ghost var added := item.Line();
      assert before[k] == items[k].Line();
      assert MergeLine(before, added) == before[k := before[k].(quantity := before[k].quantity + added.quantity)];
      var existing := items[k];
      var merged := existing.quantity + item.quantity;
      assert forall j :: 0 <= j < |items| && j != k ==> items[j] != existing by {
        assert forall j :: 0 <= j < |items| && j != k ==> items[j].productId != existing.productId;
      }
      o := existing.UpdateQuantity(merged);
      assert forall j :: 0 <= j < |items| && j != k ==> items[j].Line() == before[j];
    }

    /** `remove_item`: only while pending; removes the first item with that id. */
    method RemoveItem(itemId: Uuid, now: Timestamp) returns (o: Outcome)
      requires Valid()
      modifies this
      ensures Valid()
      ensures o == RemoveItemCheck(old(status), old(Lines()), itemId)
      ensures o.Pass? ==> Lines() == RemoveAt(old(Lines()), FindItem(old(Lines()), itemId).value)
                          && updatedAt == now
                          && events == old(events) + [ItemEvent("order_item_removed", id, itemId, now)]
      ensures o.Fail? ==> Lines() == old(Lines()) && updatedAt == old(updatedAt) && events == old(events)
      ensures status == old(status)
      ensures forall it :: it in items ==> it in old(items)
    {
      if status != Pending {
        return Fail(OrderCannotBeModified);
      }
      var found := FindItem(Lines(), itemId);
      if found.None? {
        return Fail(OrderItemNotFound);
      }
      DropItem(found.value);
      updatedAt := now;
      events := events + [ItemEvent("order_item_removed", id, itemId, now)];
      return Pass;
    }

    /** The list removal of `remove_item`: the item at `k` leaves the list. */
    method DropItem(k: nat)
      requires Valid() && k < |items|
      modifies this`items
      ensures Valid()
      ensures items == old(items[..k] + items[k + 1..])
      ensures Lines() == RemoveAt(old(Lines()), k)
    {
      ghost var objs := items;
      LinesOfRemove(objs, k);
      DistinctAfterRemove(objs, k);
      items := items[..k] + items[k + 1..];
    }

    /** `confirm`: pending orders with at least one item become confirmed. */
    method Confirm(now: Timestamp) returns (o: Outcome)
      modifies this
      ensures o == ConfirmCheck(old(status), old(Lines()))
      ensures o.Pass? ==> status == Confirmed && updatedAt == now
                          && events == old(events) + [OrderEvent("order_confirmed", id, now)]
      ensures o.Fail? ==> status == old(status) && updatedAt == old(updatedAt) && events == old(events)
      ensures items == old(items)
    {
      if status != Pending {
        return Fail(OrderCannotBeModified);
      }
      if |items| == 0 {
        return Fail(InvalidOrderData(NoItems));
      }
      status := Confirmed;
      updatedAt := now;
      events := events + [OrderEvent("order_confirmed", id, now)];
      return Pass;
    }

    /** `cancel`: every status except delivered and cancelled becomes cancelled. */
    method Cancel(now: Timestamp) returns (o: Outcome)
      modifies this
      ensures o == CancelCheck(old(status))
      ensures o.Pass? ==> status == Cancelled && updatedAt == now
                          && events == old(events) + [OrderEvent("order_cancelled", id, now)]
      ensures o.Fail? ==> status == old(status) && updatedAt == old(updatedAt) && events == old(events)
      ensures items == old(items)
    {
      if status == Delivered || status == Cancelled {
        return Fail(OrderCannotBeModified);
      }
      status := Cancelled;
      updatedAt := now;
      events := events + [OrderEvent("order_cancelled", id, now)];
      return Pass;
    }

    /** `calculate_total`: the accumulating loop. */
    method CalculateTotal() returns (r: Result<Money>)
      ensures r == TotalOf(Lines())
    {
      if |items| == 0 {
        return Ok(Money(0, "USD"));
      }
      var total := Money(0, items[0].price.currency);
      var i := 0;
      while i < |items|
        invariant 0 <= i <= |items|
        invariant SumFrom(total, Lines()[i..]) == TotalOf(Lines())
      {
        assert Lines()[i..][1..] == Lines()[i + 1..];
        var itemTotal := items[i].Total();
        if itemTotal.Err? {
          return Err(itemTotal.error);
        }
        var sum := Add(total, itemTotal.value);
        if sum.Err? {
          return Err(sum.error);
        }
        total := sum.value;
        i := i + 1;
      }
      return Ok(total);
    }

    /** `get_domain_events`: returns the buffer in emission order and empties it. */
    method GetDomainEvents() returns (drained: seq<DomainEvent>)
      modifies this`events
      ensures drained == old(events) && events == []
    {
      drained := events;
      events := [];
    }

    /** `__eq__`: orders are equal when their ids are. */
    predicate Equals(other: Order) {
      id == other.id
    }
  }
}
