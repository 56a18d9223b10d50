# Orders and users, with CQRS ports and an event worker — a Dafny model

This project models the core of a domain-driven Python service. The service has two aggregates:

- **Order**: line items priced in `Money`, a shipping address and a status machine.
- **User**: a validated email, a display name and an active flag.

Each aggregate has an application service. The service turns a command into:

- a write to the relational write store (the repository);
- one published domain event per buffered event;
- a best-effort write to the document read model;
- for users, a write to a TTL cache.

`get_user` reads cache → read model → write store and back-fills only the cache; `get_order` reads read model → write store and writes nothing back.

A worker subscribes to `events:*` and routes events to background tasks:

- `user_registered` → welcome email;
- `order_created` → read-model sync;
- `order_confirmed` → confirmation email, then payment.

The model is organised as follows:

- **Values and entities.** `OrderValues` and `UserValues` model `OrderId`, `UserId`, `Money`, `ShippingAddress`, `OrderStatus` and `Email` as datatypes and smart constructors that return `Result`. `OrderEntities.OrderItem`, `OrderEntities.Order` and `UserEntities.User` are classes whose methods update their fields in place, exactly as the entities do. Each is paired with a pure record (`ItemLine`, `OrderRecord`, `UserRecord`) that states what the new state is. The services check addresses with `Email` as written (`NewEmailAsWritten`, `re.match` semantics), so an address with a final newline is accepted and stored; `NewEmail` is the corrected check (see "## Findings").
- **Ports.** `Ports` describes the ports as values:
  - write stores are maps from id to row;
  - read-model collections are sequences of documents, with the semantics of `find_one`, `insert_one`, `update_one(upsert=True)`, `delete_one` and `find`;
  - the cache is a map;
  - every port call is appended to a trace (`PortCall`), so the contracts can state which calls happen and in what order.
- **Application services.** `OrderService.OrderApplicationService` and `UserService.UserApplicationService` are classes that hold those ports as fields. Each command method is proved equal to an effect function on the store (`CreateEffect`, `Execute`, `CreateUserEffect`, `UpdateUserEffect`, …). Lemmas over those functions state what the source promises: which errors arise, what is stored, read-your-writes, staleness after a swallowed read-model failure, and preserved store invariants.
- **Faults.** A failing port is an input (`Faults(readModelDown, cacheDown)`):
  - read-model writes are wrapped in `try` and their failure is swallowed;
  - read-model reads and every cache call are not wrapped, so they raise;
  - the cache writes come after the write store has changed (`cache.set` at src/application/users/service.py:114-116, 225-227, 288-290 and 322-324). With the cache down, `create_user`, `update_user`, `activate_user` and `deactivate_user` raise after the row is written and the events are published (`CacheFailureAfterCommit`);
  - likewise `delete_user` raises at `cache.delete` (:256), after the row is deleted;
  - `get_user` raises at its first call, `cache.get` (:133), before anything else (`GetUserSpec`);
  - `get_user` copies a read-model hit or a write-store hit into the cache only, never into the read model, and `get_order` copies nothing (`GetUserSpec`, `GetOrderReadsOnly`).
- **The worker.** `EventHandlers` models the worker. Routing is pure: each handler maps an event's data to the tasks it enqueues. `Listen` is the listener loop as written, so a `user_registered` event never yields a welcome email (`ListenSendsNoWelcome`). `Route` and `RouteAll` are the same routing with the corrected `user_registered` handler (see "## Findings").

## Model

| member | source | states |
|---|---|---|
| OrderValues.NewOrderId | src/domain/orders/value_objects.py:11-19 | `OrderId(v)` succeeds exactly for a UUID value and keeps it; anything else is a `ValueError` |
| OrderValues.NewMoney | src/domain/orders/value_objects.py:32-43 | `Money` exists exactly when the amount is non-negative and the currency has three characters; each failure has its own message, checked in the source's order |
| OrderValues.Add | src/domain/orders/value_objects.py:45-49 | adding amounts in different currencies raises; in one currency the sum keeps the currency and is valid |
| OrderValues.Mul | src/domain/orders/value_objects.py:51-53 | multiplying goes through the `Money` constructor: it succeeds iff the product is non-negative |
| OrderValues.MulNonNegative | src/domain/orders/entities.py:90-96 | a valid price times a non-negative quantity is always a valid line total |
| OrderValues.MulNegativeFails | src/domain/orders/value_objects.py:51-53 | a positive price times a negative multiplier raises the negative-amount error |
| OrderValues.AddZeroIdentity | src/domain/orders/entities.py:250-262 | supporting fact for `TotalOfSpec`: the zero `Money` the total starts from is a two-sided identity for `+` in its currency |
| OrderValues.NewShippingAddress | src/domain/orders/value_objects.py:61-77 | an address is accepted exactly when street, city and country are non-blank; each blank field raises its own error, street first |
| OrderValues.ParseStatus | src/domain/orders/value_objects.py:87-95 | `OrderStatus(v)` succeeds exactly for the six status strings and inverts `.value` |
| OrderValues.StatusRoundTrip | src/infrastructure/db_postgres/order_repository_impl.py:106-139 | a stored status string always reloads to the same status |
| OrderEntities.FindProduct | src/domain/orders/entities.py:175-178 | finds the first line with that product, or proves there is none |
| OrderEntities.FindItem | src/domain/orders/entities.py:205-207 | finds the first line with that item id, or proves there is none |
| OrderEntities.QuantityOfAppend | src/domain/orders/entities.py:161-188 | appending a line adds its quantity to its product's total quantity and to no other |
| OrderEntities.QuantityOfUpdate | src/domain/orders/entities.py:179-180 | replacing one line changes product quantities by exactly the difference |
| OrderEntities.MergeLineSpec | src/domain/orders/entities.py:161-188 | `add_item` merges a repeat product into its line and appends a new one; products stay unique, and the quantity added reaches exactly the product added |
| OrderEntities.MergeLineValid | src/domain/orders/entities.py:161-188 | merging keeps every line valid |
| OrderEntities.MergeLine | src/domain/orders/entities.py:175-182 | the lines after `add_item` on values: the first line with the product gets the summed quantity, or the item is appended; proved against per-product totals by `MergeLineSpec` |
| OrderEntities.RemoveAt | src/domain/orders/entities.py:209 | `self.items.remove(item)` on values, at the found position; stated by `RemoveAtSpec` |
| OrderEntities.RemoveAtSpec | src/domain/orders/entities.py:190-214 | removing an item drops exactly that line, keeps the others in order, and leaves a sub-multiset with unique products |
| OrderEntities.MutatorGuards | src/domain/orders/entities.py:161-248 | supporting fact, close to the definitions: only a pending order accepts items, removals and confirmation; confirm needs items; cancel fails exactly on delivered or cancelled |
| OrderEntities.SumFromHomogeneous | src/domain/orders/entities.py:250-262 | summing lines in the accumulator's currency gives the subtotal in that currency |
| OrderEntities.SumFromMixed | src/domain/orders/entities.py:250-262 | one line in another currency makes the total raise the currency error |
| OrderEntities.TotalOfSpec | src/domain/orders/entities.py:250-262 | the empty order totals `0 USD`; otherwise the total exists iff all lines share the first line's currency, and then it is the subtotal |
| OrderEntities.LineTotal | src/domain/orders/entities.py:90-96 | `OrderItem.calculate_total()`: price times quantity through `Money.__mul__`; its success for valid lines is `MulNonNegative` |
| OrderEntities.TotalOf | src/domain/orders/entities.py:250-262 | `calculate_total` on values: `0 USD` for no items, else the fold from the first line's currency; stated by `TotalOfSpec`, and the loop `Order.CalculateTotal` is proved equal to it |
| OrderEntities.NewItemLine | src/domain/orders/entities.py:43-75 | an item is created exactly when the name is non-blank and the quantity positive; the name is stored stripped |
| OrderEntities.OrderItem.constructor | src/domain/orders/entities.py:24-41 | the fields are those given |
| OrderEntities.OrderItem.Create | src/domain/orders/entities.py:43-75 | `OrderItem.create` returns a fresh item whose fields are the validated line, or the same error |
| OrderEntities.OrderItem.UpdateQuantity | src/domain/orders/entities.py:77-88 | a positive quantity replaces the old one; anything else raises and changes nothing |
| OrderEntities.LinesOf | src/domain/orders/entities.py:110-134 | the item objects' lines, in order |
| OrderEntities.LinesOfRemove | src/domain/orders/entities.py:190-214 | dropping the k-th item object drops the k-th line |
| OrderEntities.DistinctAfterRemove | src/domain/orders/entities.py:190-214 | removing an item keeps products distinct |
| OrderEntities.Order.constructor | src/domain/orders/entities.py:110-134 | the fields are those given; the event buffer is empty |
| OrderEntities.Order.Create | src/domain/orders/entities.py:136-159 | a fresh pending order with no items, both timestamps `now`, and one `order_created` event |
| OrderEntities.Order.FromRecord | src/infrastructure/db_postgres/order_repository_impl.py:106-139 | reloading a stored order rebuilds exactly that record, with fresh item objects and no buffered events |
| OrderEntities.Order.AddItem | src/domain/orders/entities.py:161-188 | on success the lines are the merge of the old lines with the item, `updated_at` is `now` and one `order_item_added` event is appended; on failure nothing changes; the status never changes |
| OrderEntities.Order.MergeInto | src/domain/orders/entities.py:179-180 | adding a product the order already has goes through `update_quantity` on that line: it succeeds or fails exactly as `AddItemCheck` says, and on success the lines are the merge of the old lines with the item, otherwise unchanged |
| OrderEntities.Order.AppendItem | src/domain/orders/entities.py:181-182 | a product not yet in the order is appended as a new last line, which is what the merge of the lines does for a new product; the order stays valid |
| OrderEntities.Order.DropItem | src/domain/orders/entities.py:209 | removing the found line leaves every other line in its order and keeps the order valid |
| OrderEntities.Order.RemoveItem | src/domain/orders/entities.py:190-214 | removes the first line with that id and appends `order_item_removed`, or raises (unmodifiable, not found) with nothing changed |
| OrderEntities.Order.Confirm | src/domain/orders/entities.py:216-233 | a pending order with items becomes confirmed with one `order_confirmed` event; otherwise it raises and nothing changes |
| OrderEntities.Order.Cancel | src/domain/orders/entities.py:235-248 | any order not delivered or cancelled becomes cancelled with one `order_cancelled` event; otherwise it raises and nothing changes |
| OrderEntities.Order.CalculateTotal | src/domain/orders/entities.py:250-262 | the loop's result is the total of the lines (see `TotalOfSpec`) |
| OrderEntities.Order.GetDomainEvents | src/domain/orders/entities.py:279-287 | returns the buffered events in order and empties the buffer |
| UserValues.NewUserId | src/domain/users/value_objects.py:10-19 | `UserId(v)` succeeds exactly for a UUID value; a string is rejected |
| UserValues.NewEmailAsWritten | src/domain/users/value_objects.py:36-43 | as written: empty raises; otherwise the value is accepted exactly when `re.match` with the pattern accepts it, which includes a final newline |
| UserValues.NewEmail | src/domain/users/value_objects.py:36-43 | corrected: accepted exactly when the whole string is `local@domain` in the pattern's shape |
| UserValues.AddressEndsInLetter | src/domain/users/value_objects.py:41-43 | an accepted address ends in a letter of the top-level label |
| UserValues.DomainHasNoAt | src/domain/users/value_objects.py:41-43 | the domain part holds no `@` |
| UserValues.AddressShape | src/domain/users/value_objects.py:41-43 | an accepted address has exactly one `@` and ends in at least two letters |
| UserValues.DomainEndsInLetters | src/domain/users/value_objects.py:41-43 | a domain the pattern accepts has at least four characters and ends in two letters |
| UserValues.OnlyAt | src/domain/users/value_objects.py:41-43 | an accepted address has its `@` at one position only, the one between local part and domain |
| UserValues.TrailingNewlineAccepted | src/domain/users/value_objects.py:41-42 | for every valid address `s`, the as-written check accepts `s + "\n"` and the corrected one rejects it |
| UserValues.TrailingNewlineExample | src/domain/users/value_objects.py:41-42 | `"a@b.co\n"` is accepted as written and rejected when corrected |
| UserEntities.NewUserRecord | src/domain/users/entities.py:35-64 | a user is created exactly when the name is non-blank: stripped name, active, both timestamps `now` |
| UserEntities.RenamedRecord | src/domain/users/entities.py:66-80 | a rename succeeds exactly for a non-blank name and changes only name and `updated_at` |
| UserEntities.RenameIdempotent | src/domain/users/entities.py:66-80 | renaming to the stored (stripped) name again leaves the same record up to the timestamp |
| UserEntities.User.constructor | src/domain/users/entities.py:12-33 | the fields are those given; the event buffer is empty |
| UserEntities.User.Create | src/domain/users/entities.py:35-64 | a fresh user with the validated record and one `user_registered` event carrying `str(id)` |
| UserEntities.User.UpdateName | src/domain/users/entities.py:66-80 | the rename happens exactly when it is valid, with one `user_name_updated` event; otherwise it raises and nothing changes |
| UserEntities.User.UpdateEmail | src/domain/users/entities.py:82-90 | the email and `updated_at` change and one `user_email_updated` event is appended, even when the email is unchanged |
| UserEntities.User.Activate | src/domain/users/entities.py:92-99 | an active user is left untouched with no event; an inactive one becomes active with one `user_activated` event |
| UserEntities.User.Deactivate | src/domain/users/entities.py:101-108 | an inactive user is left untouched with no event; an active one becomes inactive with one `user_deactivated` event |
| UserEntities.User.GetDomainEvents | src/domain/users/entities.py:125-133 | returns the buffered events in order and empties the buffer |
| UserEntities.UserIdentity | src/domain/users/entities.py:135-143 | supporting fact, close to the definitions: users are equal exactly when their ids are; equality is symmetric and equal users hash alike |
| Text.StripEmptyIffBlank | src/domain/users/entities.py:54 | `not name.strip()` holds exactly when the name is all whitespace |
| Text.StripIsTrimmedSlice | src/domain/orders/entities.py:72 | `strip()` removes only leading and trailing whitespace and leaves non-space ends |
| Text.TrimStartCutsBlank | src/domain/orders/entities.py:72 | what `strip()` cuts from the front is all whitespace |
| Text.TrimEndCutsBlank | src/domain/orders/entities.py:72 | what `strip()` cuts from the back is all whitespace |
| Text.IsSpace | src/domain/users/entities.py:54 | the characters Python's `str.isspace` accepts, on which `strip` and the blank-name checks rest; stated through `StripEmptyIffBlank` |
| Text.Strip | src/domain/orders/entities.py:72 | `str.strip()`: drops leading and trailing whitespace; its properties are `StripEmptyIffBlank`, `StripIsTrimmedSlice`, `StripOfNonBlank` and `StripIdempotent` |
| Text.StripOfNonBlank | src/domain/users/entities.py:54-60 | a name that passes the check is still non-blank once stripped |
| Text.StripIdempotent | src/domain/users/entities.py:78 | stripping a stored name again changes nothing |
| Text.UuidTextRoundTrip | src/application/users/service.py:358-380 | `UUID(str(id))` gives back `id` |
| Text.UuidTextInjective | src/infrastructure/db_mongo/user_read_model_impl.py:25-30 | distinct ids have distinct `str(id)` texts, so documents keyed by id (users and orders alike) never collide |
| Text.TimeTextRoundTrip | src/application/users/service.py:358-380 | `datetime.fromisoformat(t.isoformat())` gives back `t` |
| Text.IntTextRoundTrip | src/application/orders/service.py:366-421 | `Decimal(str(amount))` gives back the amount |
| Text.LowerAscii | src/infrastructure/db_postgres/user_repository_impl.py:85 | `.lower()` keeps the length and lowers each ASCII letter |
| Text.LowerOfLower | src/infrastructure/db_postgres/user_repository_impl.py:85-95 | the stored `"true"`/`"false"` are unchanged by `.lower()` |
| Events.IdPayload | src/domain/users/entities.py:63 | `{key: str(id)}` is JSON-serialisable, truthy under that key, and holds the id's text |
| Ports.PublishCalls | src/application/orders/service.py:95-99 | one `publish_event` per event, in order, with its type and data |
| Ports.PublishEach | src/application/users/service.py:208-213 | the publishing loop makes exactly those calls |
| Ports.FirstMatch | src/infrastructure/db_mongo/order_read_model_impl.py:26-31 | `find_one` finds the first document with the key, or none exists |
| Ports.FindAll | src/infrastructure/db_mongo/order_read_model_impl.py:33-42 | `find` returns documents of the collection with the key, and every such document |
| Ports.FirstMatchAt | src/infrastructure/db_mongo/order_read_model_impl.py:26-31 | the first match is determined by its two defining properties |
| Ports.FindOne | src/infrastructure/db_mongo/order_read_model_impl.py:26-31 | `find_one({field: k})`: the document at `FirstMatch`, or none |
| Ports.UpsertSpec | src/infrastructure/db_mongo/order_read_model_impl.py:48-52 | after an upsert the document is found under its key, other keys find what they found before, and unique keys stay unique |
| Ports.UpsertMembers | src/infrastructure/db_mongo/user_read_model_impl.py:47-51 | an upsert adds only the new document |
| Ports.UpsertDoc | src/infrastructure/db_mongo/order_read_model_impl.py:48-52 | `update_one(..., upsert=True)`; stated by `UpsertSpec` and `UpsertMembers` |
| Ports.DeleteOneMembers | src/infrastructure/db_mongo/user_read_model_impl.py:53-55 | `delete_one` only removes documents |
| Ports.DeleteOneSpec | src/infrastructure/db_mongo/user_read_model_impl.py:53-55 | after `delete_one(k)` other keys are unaffected and, with unique keys, `k` is gone |
| Ports.DeleteOne | src/infrastructure/db_mongo/user_read_model_impl.py:53-55 | `delete_one({"id": k})`; stated by `DeleteOneSpec` and `DeleteOneMembers` |
| OrderService.ItemDtosOf | src/application/orders/service.py:350-360 | one item DTO per line, in order |
| OrderService.DtoOf | src/application/orders/service.py:335-364 | `_to_dto`: fails exactly when `calculate_total` does; stated by `DtoOfSpec` |
| OrderService.ToDoc | src/application/orders/service.py:366-394 | `_to_read_model_dict`; its inverse is `FromDoc` (`DocRoundTrip`) |
| OrderService.FromDoc | src/application/orders/service.py:396-421 | `_from_read_model_dict`, which raises on malformed ids, times or amounts; it inverts `ToDoc` (`DocRoundTrip`) |
| OrderService.DtoOfSpec | src/application/orders/service.py:335-364 | `_to_dto` succeeds iff the total does; the DTO carries the ids, status text, each item's id, product, quantity and price, and the total |
| OrderService.ItemsRoundTrip | src/application/orders/service.py:366-421 | items written to a document read back unchanged |
| OrderService.DocRoundTrip | src/application/orders/service.py:366-421 | `_from_read_model_dict(_to_read_model_dict(d)) == d` |
| OrderService.DocsToDtos | src/application/orders/service.py:325-329 | a list of documents converts iff every document does, element by element |
| OrderService.UpdateRowSpec | src/infrastructure/db_postgres/order_repository_impl.py:56-93 | `update` of an absent order does nothing; of a present one, it replaces the row; the key set is unchanged |
| OrderService.UpdateRow | src/infrastructure/db_postgres/order_repository_impl.py:56-93 | `OrderRepository.update` on the map of rows; stated by `UpdateRowSpec` |
| OrderService.Step | src/application/orders/service.py:134-311 | the entity mutation of each command on the stored record: add item (Money, `OrderItem.create`, `add_item`), remove item, confirm, cancel; it keeps records valid (`StepPreservesValid`) |
| OrderService.Commit | src/application/orders/service.py:163-180 | the tail every command shares: `update`, one publish per event, `_to_dto`, the guarded read-model update; stated by `CommitShape` and `CommitPreservesValid` |
| OrderService.Execute | src/application/orders/service.py:134-311 | a whole command: load, `Step`, `Commit`; stated by `ExecuteSpec`, `ExecuteOk`, `ExecutePreservesValid` and `ReadYourWrites` |
| OrderService.StepPreservesValid | src/application/orders/service.py:134-311 | every successful command keeps the order valid and changes neither its id, owner, address nor creation time |
| OrderService.CommitPreservesValid | src/application/orders/service.py:163-180 | the write, publish and read-model update keep the store valid |
| OrderService.CommitShape | src/application/orders/service.py:163-180 | the commit writes the record, then publishes the events in order, returns the record's DTO; the whole log is update, publishes and, only when the DTO converts, the read-model update last; a failed conversion leaves the read model as it was |
| OrderService.InsertKeepsValid | src/application/orders/service.py:92-106 | adding a fresh valid record, with or without its read-model document, keeps the store valid |
| OrderService.ExecutePreservesValid | src/application/orders/service.py:134-311 | every command keeps the store valid |
| OrderService.FreshKeyAbsent | src/application/orders/service.py:101-106 | an id new to the write store has no read-model document |
| OrderService.CreateEffect | src/application/orders/service.py:68-109 | `create_order` on the store; stated by `CreateSpec`, `CreateEffectOk` and `CreatePreservesValid` |
| OrderService.GetOrderEffect | src/application/orders/service.py:111-132 | `get_order`: the read model, then the write store; stated by `GetOrderReadsOnly`, `ReadYourWrites` and `StaleReadAfterFailure` |
| OrderService.CreateEffectOk | src/application/orders/service.py:68-109 | an accepted `create_order` stores a pending empty order, logs add, `order_created`, read-model create, and returns its DTO |
| OrderService.CreatePreservesValid | src/application/orders/service.py:68-109 | `create_order` with a fresh id keeps the store valid |
| OrderService.CreateSpec | src/application/orders/service.py:68-109 | an invalid address raises before any port call; otherwise the new pending order is stored and returned empty with total `0 USD`, with the calls in the source's order |
| OrderService.ExecuteSpec | src/application/orders/service.py:134-311 | a command first loads the order; a missing order or rejected step changes nothing else; a successful step stores the new record and returns its DTO, and the whole log is load, update, publish and then, when the DTO converts, the read-model update |
| OrderService.ExecuteOk | src/application/orders/service.py:134-311 | a command on a stored order whose step succeeds logs exactly the load, the update, the event publication and, when the DTO converts, the read-model update, in that order; it stores the new record and returns its DTO |
| OrderService.ReadModelFailureSwallowed | src/application/orders/service.py:173-180 | a failing read model changes neither the result, the write store nor the trace, only leaves the stale document |
| OrderService.ReadYourWrites | src/application/orders/service.py:111-132 | after a successful command, `get_order` returns that command's DTO |
| OrderService.CreateReadYourWrites | src/application/orders/service.py:68-132 | after a successful `create_order`, `get_order` returns the new order |
| OrderService.StaleReadAfterFailure | src/application/orders/service.py:111-132 | when the read model failed during a command, `get_order` still returns the old document |
| OrderService.GetOrderReadsOnly | src/application/orders/service.py:111-132 | `get_order` changes no store and keeps it valid |
| OrderService.DtoStep | src/application/orders/service.py:331-333 | one step of the conversion loop keeps the loop's bookkeeping |
| OrderService.CollectedUserOrders | src/application/orders/service.py:331-333 | the collected DTOs are exactly the user's orders |
| OrderService.OrderApplicationService.constructor | src/application/orders/service.py:51-66 | empty stores and trace |
| OrderService.OrderApplicationService.ToDto | src/application/orders/service.py:335-364 | the method's result is `DtoOf` of the order |
| OrderService.OrderApplicationService.LoadOrder | src/infrastructure/db_postgres/order_repository_impl.py:30-39 | `get_by_id` returns a fresh valid entity for the stored row, or none when absent, and logs one call |
| OrderService.OrderApplicationService.Finish | src/application/orders/service.py:163-180 | save, publish and read-model update equal `Commit` |
| OrderService.OrderApplicationService.Save | src/application/orders/service.py:163-169 | `update` and the publish loop: the row is replaced by the entity's record and one publish call per buffered event is logged, in order |
| OrderService.OrderApplicationService.RowDto | src/application/orders/service.py:333 | `self._to_dto(order)` on a loaded row: the result is `DtoOf` of the row |
| OrderService.OrderApplicationService.Insert | src/application/orders/service.py:91-106 | `add`, publish, and read-model create of a new order, with the read-model write skipped when it fails |
| OrderService.OrderApplicationService.CreateOrder | src/application/orders/service.py:68-109 | the method equals `CreateEffect` and keeps the store valid |
| OrderService.OrderApplicationService.GetOrder | src/application/orders/service.py:111-132 | the method equals `GetOrderEffect` |
| OrderService.OrderApplicationService.AddItemToLoaded | src/application/orders/service.py:151-161 | building the `Money` and the item, then `add_item`, equals the pure step |
| OrderService.OrderApplicationService.AddItemToOrder | src/application/orders/service.py:134-183 | the method equals `Execute` of the add-item command |
| OrderService.OrderApplicationService.RemoveItemFromOrder | src/application/orders/service.py:185-227 | the method equals `Execute` of the remove-item command |
| OrderService.OrderApplicationService.RemoveItemFromLoaded | src/application/orders/service.py:205 | calling `remove_item` on the loaded order fails exactly when the step does, and on success leaves the order in the step's state with `order_item_removed` appended |
| OrderService.OrderApplicationService.ConfirmOrder | src/application/orders/service.py:229-269 | the method equals `Execute` of confirm |
| OrderService.OrderApplicationService.CancelOrder | src/application/orders/service.py:271-311 | the method equals `Execute` of cancel |
| OrderService.OrderApplicationService.CollectDtos | src/application/orders/service.py:331-333 | the conversion loop fails iff some order fails to convert, and otherwise yields one DTO per order |
| OrderService.CollectedAll | src/application/orders/service.py:331-333 | once every order is visited, the list has one DTO per order, in visiting order, with no order twice |
| OrderService.OrderApplicationService.GetOrdersByUser | src/application/orders/service.py:313-333 | a non-empty read-model answer is converted; an empty one falls back to the write store and lists exactly the user's orders; a failing read model raises |
| UserService.RowRoundTrip | src/infrastructure/db_postgres/user_repository_impl.py:77-99 | `_to_entity(_to_model(u)) == u`, and a valid user gives a valid row |
| UserService.RowLoads | src/infrastructure/db_postgres/user_repository_impl.py:77-99 | a valid row loads to a valid user whose row it is |
| UserService.RowOf | src/infrastructure/db_postgres/user_repository_impl.py:90-99 | `_to_model`; `EntityOf` inverts it on valid users (`RowRoundTrip`) |
| UserService.EntityOf | src/infrastructure/db_postgres/user_repository_impl.py:77-88 | `_to_entity`: the stored address goes through `Email` again and the flag is what lower-cases to "true"; every valid row loads (`RowLoads`) |
| UserService.UpdateUserRow | src/infrastructure/db_postgres/user_repository_impl.py:52-64 | `UserRepository.update` on the map of rows; stated by `UpdateUserRowSpec` |
| UserService.UpdateUserRowSpec | src/infrastructure/db_postgres/user_repository_impl.py:52-64 | `update` of an absent user does nothing; of a present one, it replaces the row; keys unchanged |
| UserService.DocRoundTrip | src/application/users/service.py:358-404 | the read-model and cache dictionaries convert back to the same DTO |
| UserService.DtoOf | src/application/users/service.py:347-356 | `_to_dto`: a field-by-field copy of the user |
| UserService.ToDoc | src/application/users/service.py:358-367 | `_to_read_model_dict`, which `_to_cache_dict` repeats; inverted by `FromDoc` (`DocRoundTrip`) |
| UserService.FromDoc | src/application/users/service.py:369-380 | `_from_read_model_dict` / `_from_cache_dict`, which raise on malformed ids or times; inverts `ToDoc` (`DocRoundTrip`) |
| UserService.DtoDocCanonical | src/application/users/service.py:358-367 | a written document is canonical and keeps the id |
| UserService.DocsToDtos | src/application/users/service.py:338-342 | the search results convert iff every document does, element by element |
| UserService.Matching | src/infrastructure/db_mongo/user_read_model_impl.py:32-41 | keeps exactly the documents whose email contains the pattern, case-insensitively |
| UserService.SearchDocsSpec | src/infrastructure/db_mongo/user_read_model_impl.py:32-41 | at most 100 results, each a match from the collection; all matches when there are at most 100 |
| UserService.SearchDocs | src/infrastructure/db_mongo/user_read_model_impl.py:32-41 | `find(...).limit(100)` over the collection; stated by `SearchDocsSpec` |
| UserService.RowsPut | src/infrastructure/db_postgres/user_models.py:23 | writing a valid row keeps rows valid and emails unique |
| UserService.DocsPut | src/infrastructure/db_mongo/user_read_model_impl.py:47-51 | an upsert keeps the read model valid |
| UserService.DocsAppend | src/infrastructure/db_mongo/user_read_model_impl.py:43-45 | inserting a document under a new key keeps the read model valid |
| UserService.DocsDelete | src/infrastructure/db_mongo/user_read_model_impl.py:53-55 | `delete_one` keeps the read model valid |
| UserService.CachePut | src/infrastructure/db_redis/user_cache_impl.py:33-36 | `set` keeps the cache valid |
| UserService.CacheStep | src/application/users/service.py:114-116 | the unguarded `cache.set` that ends the commands: the entry is written, or with the cache down the call raises after everything before it |
| UserService.SavePreservesValid | src/application/users/service.py:205-227 | save, publish, read-model and cache writes keep the store valid |
| UserService.SaveEffect | src/application/users/service.py:205-227 | `update`, publish, `_to_dto`, guarded read-model update and cache write; keeps the store valid (`SavePreservesValid`) |
| UserService.CreateUserEffect | src/application/users/service.py:73-119 | `create_user` on the store, with `Email` as written; stated by `CreateSpec`, `CreateEffectOk`, `CreateRegisters` and `CreateStoresTrailingNewline` |
| UserService.GetUserEffect | src/application/users/service.py:121-157 | `get_user` on the store; stated by `GetUserSpec`, `CreateThenGet` and `GetUserPreservesValid` |
| UserService.GetUserByEmailEffect | src/application/users/service.py:159-172 | `get_user_by_email` on the store; stated by `GetUserByEmailSpec` |
| UserService.RenameStep | src/application/users/service.py:192-193 | `if command.name: user.update_name(...)`: an empty or absent name changes nothing; stated through `UpdateSpec` |
| UserService.EmailStep | src/application/users/service.py:194-227 | the email branch of `update_user` and the save; stated by `EmailStepSpec`, `EmailStepOwnAddress` and `EmailStepPreservesValid` |
| UserService.UpdateUserEffect | src/application/users/service.py:174-230 | `update_user` on the store; stated by `UpdateSpec`, `UpdateLoaded`, `UpdateOwnEmail`, `UpdateRejectsTakenEmail` and `UpdatePreservesValid` |
| UserService.DeleteUserEffect | src/application/users/service.py:232-258 | `delete_user` on the store; stated by `DeleteUserSpec`, `DeleteThenGone`, `StaleReadAfterDelete` and `DeletePreservesValid` |
| UserService.StoreEffect | src/application/users/service.py:277-292 | `update`, publish and cache write, with no read-model write, as activation does; stated through `SetActiveSkipsReadModel` |
| UserService.SetActiveEffect | src/application/users/service.py:260-326 | `activate_user` / `deactivate_user` on the store; stated by `SetActiveMissing`, `SetActiveLoaded`, `SetActiveSets`, `SetActiveIdempotent` and `SetActivePreservesValid` |
| UserService.SearchEffect | src/application/users/service.py:328-345 | `search_users` on the store; stated by `SearchSpec` |
| UserService.CreatePreservesValid | src/application/users/service.py:73-119 | `create_user` with a fresh id keeps the store valid |
| UserService.GetUserPreservesValid | src/application/users/service.py:121-157 | `get_user` and its back-fills keep the store valid |
| UserService.EmailStepPreservesValid | src/application/users/service.py:194-227 | the email step, including the uniqueness check, keeps the store valid |
| UserService.UpdatePreservesValid | src/application/users/service.py:174-230 | `update_user` keeps the store valid, in particular emails unique |
| UserService.DeletePreservesValid | src/application/users/service.py:232-258 | `delete_user` keeps the store valid |
| UserService.DeleteUserSpec | src/application/users/service.py:241-256 | an unknown id raises `UserNotFoundError` after the lookup alone; a stored user is deleted from the write store, the read model and the cache in that order, and the call raises only when the cache is down, after the row is gone |
| UserService.SetActiveMissing | src/application/users/service.py:260-326 | activate or deactivate of an unknown id raises `UserNotFoundError` after the lookup alone and writes nothing |
| UserService.SetActiveLoaded | src/application/users/service.py:260-326 | activate and deactivate load the user, toggle, update the row, publish, and set the cache |
| UserService.SetActivePreservesValid | src/application/users/service.py:260-326 | activate and deactivate keep the store valid |
| UserService.CreateEffectOk | src/application/users/service.py:73-119 | an accepted `create_user` stores the row and logs lookup, add, `user_registered`, read-model create, then sets the cache |
| UserService.CreateSpec | src/application/users/service.py:73-119 | an address `re.match` rejects raises before any call; a taken email raises `UserEmailAlreadyExists`; a blank name raises; otherwise the active user is stored, the DTO returned, and the calls happen in the source's order |
| UserService.CreateRegisters | src/application/users/service.py:73-119 | a successful `create_user` stores the user under the new id with the given email and publishes `user_registered` carrying that id |
| UserService.CacheFailureAfterCommit | src/application/users/service.py:113-116 | a cache failure makes `create_user` raise although the user is stored and its registration published |
| UserService.CreateStoresTrailingNewline | src/application/users/service.py:85-119 | for any valid address `e`, `create_user` with `e + "\n"` stores that string, newline included, while the corrected check refuses it |
| UserService.CreateThenGet | src/application/users/service.py:121-135 | after `create_user`, `get_user` answers from the cache with the same DTO |
| UserService.UpdateRejectsTakenEmail | src/application/users/service.py:197-202 | changing to another user's email raises and leaves every store unchanged |
| UserService.EmailStepSpec | src/application/users/service.py:194-227 | a new address `re.match` rejects raises with nothing written; on success the row gets the new email and `updated_at`, and the DTO is the new record |
| UserService.EmailStepOwnAddress | src/application/users/service.py:197-203 | re-submitting the current address makes no uniqueness lookup and so cannot conflict; `update_email` still runs and records its event |
| UserService.UpdateOwnEmail | src/application/users/service.py:174-230 | `update_user` with only the user's own address: one load, no `get_by_email`, the save; it raises only when the cache is down |
| UserService.UpdateSpec | src/application/users/service.py:174-230 | not found raises; a blank name raises with the store unchanged; otherwise exactly the given non-empty fields change, and the DTO reports them |
| UserService.UpdateLoaded | src/application/users/service.py:174-230 | for a stored user: a blank supplied name raises with the users unchanged; otherwise the row becomes the old one with the supplied name (stripped) and email, `updated_at` moving only when something was supplied |
| UserService.DeleteThenGone | src/application/users/service.py:232-258 | after a successful delete, `get_user` finds nothing |
| UserService.StaleReadAfterDelete | src/application/users/service.py:249-253 | when the read-model delete fails, `get_user` still returns the deleted user from the read model |
| UserService.SetActiveSkipsReadModel | src/application/users/service.py:277-292 | activate and deactivate never write the read model |
| UserService.SetActiveSets | src/application/users/service.py:260-326 | afterwards the stored active flag is the one requested |
| UserService.SetActiveIdempotent | src/domain/users/entities.py:92-108 | for a user already in the requested state, the row is unchanged and no event is published |
| UserService.GetUserSpec | src/application/users/service.py:121-157 | the cache, then the read model, then the write store, stopping at the first hit; a cache failure raises at once; a read-model hit is copied into the cache as it is, a write-store hit is cached but never written to the read model, a miss everywhere is `None` with nothing written; neither store is ever changed |
| UserService.GetUserByEmailSpec | src/application/users/service.py:159-172 | an address `re.match` rejects raises before any call; otherwise one lookup, which finds nothing exactly when no row has the address, and otherwise that user's DTO |
| UserService.SearchSpec | src/application/users/service.py:328-345 | a missing or empty pattern returns `[]` without a call; results are at most 100 matching documents; a working read model always answers |
| UserService.UserApplicationService.constructor | src/application/users/service.py:50-71 | empty stores and trace, the given TTL |
| UserService.UserApplicationService.LoadUser | src/infrastructure/db_postgres/user_repository_impl.py:24-33 | `get_by_id` returns a fresh valid entity for the row or none, and logs one call |
| UserService.UserApplicationService.CacheDto | src/infrastructure/db_redis/user_cache_impl.py:33-36 | the cache write equals `CacheStep`, raising when the cache is down |
| UserService.UserApplicationService.Persist | src/application/users/service.py:205-227 | the tail of `update_user` equals `SaveEffect` |
| UserService.UserApplicationService.Register | src/application/users/service.py:96-116 | the tail of `create_user`: add, publish, read-model create, cache |
| UserService.UserApplicationService.CreateUser | src/application/users/service.py:73-119 | the method equals `CreateUserEffect` and keeps the store valid |
| UserService.UserApplicationService.GetUser | src/application/users/service.py:121-157 | the method equals `GetUserEffect` and keeps the store valid |
| UserService.UserApplicationService.GetUserByEmail | src/application/users/service.py:159-172 | the method equals `GetUserByEmailEffect` |
| UserService.UserApplicationService.ApplyEmail | src/application/users/service.py:194-227 | the email step and save equal `EmailStep` |
| UserService.UserApplicationService.UpdateUser | src/application/users/service.py:174-230 | the method equals `UpdateUserEffect` and keeps the store valid |
| UserService.UserApplicationService.DeleteUser | src/application/users/service.py:232-258 | the method equals `DeleteUserEffect` and keeps the store valid |
| UserService.UserApplicationService.Store | src/application/users/service.py:277-292 | save, publish and cache write (no read model) equal `StoreEffect` |
| UserService.UserApplicationService.ActivateUser | src/application/users/service.py:260-292 | the method equals `SetActiveEffect(..., true, ...)` and keeps the store valid |
| UserService.UserApplicationService.DeactivateUser | src/application/users/service.py:294-326 | the method equals `SetActiveEffect(..., false, ...)` and keeps the store valid |
| UserService.UserApplicationService.SearchUsers | src/application/users/service.py:328-345 | the method equals `SearchEffect` |
| EventHandlers.Deliver | src/infrastructure/external/messaging_service_impl.py:27-38 | `publish_event` on the wire: the message `{"event_type", "data"}` on `events:<type>`, or nothing when `json.dumps` would raise; used by `RegistrationDelivered` and `OrderEventsRouted` |
| EventHandlers.WelcomeFor | src/workers/events/handlers.py:34-37 | `get_by_id` then `send_welcome_email.delay(str(user.id), str(user.email))` for a user who loads; stated by `WelcomeSpec` |
| EventHandlers.HandleUserRegisteredAsWritten | src/workers/events/handlers.py:16-41 | `handle_user_registered` as written, with `UserId(user_id)` on the JSON value; stated by `WelcomeNeverSentAsWritten` |
| EventHandlers.HandleUserRegistered | src/workers/events/handlers.py:16-41 | corrected: the id text is parsed to a UUID first; stated by `WelcomeSpec` |
| EventHandlers.HandleOrderCreated | src/workers/events/handlers.py:45-57 | `handle_order_created`; stated by `OrderTasksFollowId`, `OrderTasksCarryId` and `MissingIdNoTasks` |
| EventHandlers.HandleOrderConfirmed | src/workers/events/handlers.py:60-73 | `handle_order_confirmed`; stated by `OrderTasksFollowId`, `OrderTasksCarryId` and `MissingIdNoTasks` |
| EventHandlers.DispatchAsWritten | src/workers/events/handlers.py:94-99 | the `event_type` switch as written |
| EventHandlers.Dispatch | src/workers/events/handlers.py:94-99 | corrected: the same switch with the corrected user handler; agrees with the one as written elsewhere (`RouteAgreesElsewhere`) |
| EventHandlers.RouteAsWritten | src/workers/events/handlers.py:88-101 | one iteration of the loop as written: only decoded `pmessage` messages are dispatched |
| EventHandlers.Route | src/workers/events/handlers.py:88-101 | corrected: one iteration with the corrected user handler; stated by `RouteFilters` |
| EventHandlers.RouteAllAsWritten | src/workers/events/handlers.py:87-101 | the tasks of the loop as written over a run of messages, in order; stated by `ListenSendsNoWelcome` and `RouteAllAppend` |
| EventHandlers.RouteAll | src/workers/events/handlers.py:87-101 | corrected: the same over the corrected routing; stated by `RouteAllAppend` and `ListenAgreesElsewhere` |
| EventHandlers.Listen | src/workers/events/handlers.py:87-101 | the listener loop as written enqueues exactly `RouteAllAsWritten` of the messages received |
| EventHandlers.RouteAllAppend | src/workers/events/handlers.py:87-101 | messages are handled independently, as written and corrected: a message that fails enqueues nothing and the loop goes on |
| EventHandlers.ListenSendsNoWelcome | src/workers/events/handlers.py:87-101 | as written, no run of the listener over JSON-decoded messages enqueues a welcome email |
| EventHandlers.ListenAgreesElsewhere | src/workers/events/handlers.py:94-99 | without `user_registered` events, the listener as written and the corrected one enqueue the same tasks |
| EventHandlers.RegistrationDelivered | src/workers/events/handlers.py:87-101 | a `user_registered` message with a `user_id` is decoded and dispatched to the registration handler |
| EventHandlers.RouteFilters | src/workers/events/handlers.py:88-99 | only `pmessage` messages whose body decodes are processed, and only the three known event types enqueue anything |
| EventHandlers.OrderTasksFollowId | src/workers/events/handlers.py:45-73 | the order handlers depend only on the payload's `order_id`: two payloads with the same id enqueue the same tasks |
| EventHandlers.OrderTasksCarryId | src/workers/events/handlers.py:45-73 | both order handlers enqueue something exactly for a truthy id; each task is one of theirs and carries that id, and payment is always by `"credit_card"` |
| EventHandlers.MissingIdNoTasks | src/workers/events/handlers.py:23-24 | a missing or empty id enqueues nothing, for every handled type |
| EventHandlers.WelcomeSpec | src/workers/events/handlers.py:33-37 | corrected: the welcome email goes out exactly when the write store has the user, to the stored address |
| EventHandlers.WelcomeNeverSentAsWritten | src/workers/events/handlers.py:35 | as written, no JSON-decoded event ever yields a welcome email |
| EventHandlers.RouteAgreesElsewhere | src/workers/events/handlers.py:94-99 | the corrected listener differs from the as-written one only on `user_registered` |
| EventHandlers.RegistrationSendsWelcome | src/infrastructure/external/messaging_service_impl.py:27-38 | end to end: the `user_registered` that `create_user` publishes reaches the listener, which enqueues the welcome email for the new user; as written, nothing |
| EventHandlers.OrderEventsRouted | src/infrastructure/external/messaging_service_impl.py:27-38 | end to end: the published `order_created` and `order_confirmed` events enqueue their tasks for the order's id text |
| EventHandlers.LostWelcomeExample | src/workers/events/handlers.py:35 | a concrete stored user whose registration gets no welcome email as written, and gets one when corrected |

## Left out

- I/O is not modelled: SQLAlchemy sessions, MongoDB, Redis and the Redis pub/sub connection are in-memory state. Logging is left out and `logger.error` is a swallowed error. Celery's `.delay` is modelled as an enqueued `Task` value. The tasks' own bodies are out of scope.
- The clock and `uuid4()` are parameters: one `now` and one fresh id per operation. Consecutive `datetime.utcnow()` reads in one call are taken as equal.
- Freshness of generated ids (`uuid4`) is a precondition (`FreshId` for users, `newId !in orders` for orders). The source relies on it without checking.
- `UUID`, `datetime` and `Decimal` text encodings are an abstract injective digit encoding with proved round trips. They are not the real ISO or UUID formats.
- Money amounts are integer minor units; `Decimal` arithmetic and `Numeric(10,2)` rounding are not modelled.
- Floating point, concurrency and transactions are not modelled. Each service call is one atomic step.
- The cache's TTL expiry is not modelled: an entry stays until overwritten or deleted. The TTL is recorded in the trace and is `cacheTtl` (3600 by default, `settings.USER_CACHE_TTL`, src/config/settings.py:84, passed at src/interfaces/api/dependencies.py:50).
- `search_by_email` treats its argument as a regular expression. The model treats it as a literal, ASCII case-insensitive substring match.
- `get_by_user_id` in the order read model sorts by `created_at` descending. The model returns documents in collection order.
- The SQL `get_by_email` returns "the first" row without an `ORDER BY`. The model uses `:|` (any row with that email), so `GetUserByEmailEffect` is a ghost function. Under unique emails the choice is determined.
- Which key the back-fill uses: the services key the read model and cache by the command's id, which always equals the loaded entity's id. The model uses one id.
- The HTTP interface, API schemas, health check and periodic tasks are not part of this model.
- The users domain service (`src/domain/users/services.py`) is not part of this model.
- The channel name a subscriber sees (`events:<event_type>`) is recorded but not used for routing, as in the listener.
- UserService.SearchSpec: states membership and the 100-result bound, not the order of results, because the model of the document store's scan order is a modelling choice.
- EventHandlers.Listen: the subscription never ends in the source. The model processes a finite prefix of the messages received.

## Findings

| source | as written | input that shows it | evidently intended | confidence | as-written member | corrected member |
|---|---|---|---|---|---|---|
| src/workers/events/handlers.py:35 | `UserId(user_id)` is applied to the `user_id` taken from JSON, which is always a `str`; `UserId` raises `ValueError` for anything but a `UUID`, and the handler swallows it | the `user_registered` event published by `create_user`, with `{"user_id": str(id)}`, for a stored user | `UserId(UUID(user_id))`, so that the registered user gets the welcome email | not executed | EventHandlers.WelcomeNeverSentAsWritten | EventHandlers.WelcomeSpec |
| src/domain/users/value_objects.py:41-42 | `re.match` with a pattern ending in `$`, which also matches before a final newline | `Email("a@b.co\n")` is accepted and stored with the newline | the whole string must be an address (`re.fullmatch`, or `\Z`) | not executed | UserService.CreateStoresTrailingNewline | UserValues.NewEmail |
