# Warehouse inventory: tree construction, view navigation and the navigation mailbox

A Dafny model of the in-memory core of a browser warehouse-inventory app.
A user's inventory is a tree: a collection of warehouses, each holding rooms,
each holding boxes, each holding items. The model covers three parts of it.

- **Construction of tree nodes from stored records.** The app reads partial
  records from its document store and builds full nodes from them. Every
  node gets a name, a description and a creation time. Items also get an
  update time. Absent child lists become empty lists. A timestamp is
  normalised: a falsy value becomes "now", a Firestore Timestamp becomes its
  ISO string, a string passes through, and any other value becomes "now".
  Modules `SharedElem`, `ItemModel`, `BoxModel`, `RoomModel`,
  `WarehouseModel` and `WarehousesModel` model this. Each constructor is a
  function from a raw record (`RawItem`, `RawBox`, ...) to a built node
  (`WhItem`, `WhBox`, ...). The clock and the Timestamp-to-ISO conversion are
  a `Clock` parameter. `XToRaw` gives the record a built node presents when it
  is passed to a constructor again. The lemmas prove that rebuilding a built
  node gives it back.
- **The warehouse view** (`WarehouseView.WarehouseViewComponent`). This is a
  class with the component's fields. It tracks a view level (0 rooms,
  1 boxes, 2 items) and the selected room and box. It has the `enterRoom`,
  `enterBox` and `goBack` transitions and the `getNavTitle` read. Its
  `addRoom`, `addBox` and `addItem` edits append a default node to the
  document held in memory. The source then calls `save` with the rebuilt
  warehouse. The model returns that call as a `SaveCall` value.
- **The navigation mailbox** (`NavigationService.WarehouseNavigationService`).
  This is a one-slot cell. `setTarget` overwrites it, and `consumeTarget`
  reads it and then clears it.

The component holds the document exactly as the database read returned it.
The `Warehouse | null` annotation is only a type, and no constructor runs on
that value. So the model's in-memory tree is a `RawWarehouse`: names may be
absent and child lists may be missing. The records pushed by the edits carry
no timestamps. Only the value handed to `save` is a built `Warehouse`. The
database read is declared to return a `Warehouses` document, while the
component's field is declared as a single `Warehouse`. The model follows the
component's declaration and navigates the three levels inside one warehouse.

## Model

| member | source | states |
|---|---|---|
| SharedElem.NormalizeTimestamp | src/app/_models/warehouse/shared/wh-shared-elem.ts:15-20 | the result is "now", the Timestamp's ISO string, or the input string, and never empty when both clock sources give non-empty strings |
| SharedElem.NormalizeCases | src/app/_models/warehouse/shared/wh-shared-elem.ts:15-20 | falsy input gives "now"; a Timestamp gives its ISO conversion; a non-empty string passes through unchanged; any other shape gives "now" |
| SharedElem.NormalizeIdempotent | src/app/_models/warehouse/shared/wh-shared-elem.ts:15-20 | normalising a normalised timestamp again changes nothing exactly when the first result is non-empty or "now" is empty |
| SharedElem.NormalizeTwice | src/app/_models/warehouse/shared/wh-shared-elem.ts:15-20 | under a well-formed clock, normalising a normalised timestamp gives the same timestamp |
| SharedElem.MakeShared | src/app/_models/warehouse/shared/wh-shared-elem.ts:9-13 | a given name or description is kept and an absent one becomes ""; the creation time is the normalised stored value (so a stored Timestamp becomes its ISO string), non-empty under a well-formed clock |
| SharedElem.SharedRoundTrip | src/app/_models/warehouse/shared/wh-shared-elem.ts:9-13 | constructing from an already constructed shared part with a creation time gives it back |
| ItemModel.MakeItem | src/app/_models/warehouse/wh-item.ts:6-9 | shared fields follow the shared constructor; the update time is the normalised stored value, so a non-empty string is kept exactly, a missing one becomes "now" and a stored Timestamp its ISO string; both timestamps are set under a well-formed clock |
| ItemModel.ItemRoundTrip | src/app/_models/warehouse/wh-item.ts:6-9 | constructing from a constructed item with both timestamps gives it back |
| ItemModel.ItemReconstruct | src/app/_models/warehouse/wh-item.ts:6-9 | re-constructing any constructed item yields an equal item |
| BoxModel.MakeBox | src/app/_models/warehouse/wh-box.ts:7-10 | a missing item list becomes empty; the length and order of items are kept, the i-th output item being the construction of the i-th input item; the result is valid under a well-formed clock |
| BoxModel.BoxRoundTrip | src/app/_models/warehouse/wh-box.ts:7-10 | constructing from a valid constructed box gives it back |
| BoxModel.BoxReconstruct | src/app/_models/warehouse/wh-box.ts:7-10 | re-constructing a constructed box is the identity |
| RoomModel.MakeRoom | src/app/_models/warehouse/wh-room.ts:7-10 | a missing box list becomes empty; the length and order of boxes are kept, each box constructed from the one at the same position; the result is valid under a well-formed clock |
| RoomModel.MakeBoxesItemTotal | src/app/_models/warehouse/wh-room.ts:9 | mapping the box constructor over a list keeps the total number of items in it |
| RoomModel.RoomItemTotal | src/app/_models/warehouse/wh-room.ts:9 | a constructed room holds as many items across its boxes as the stored room did |
| RoomModel.RoomRoundTrip | src/app/_models/warehouse/wh-room.ts:7-10 | constructing from a valid constructed room gives it back |
| RoomModel.RoomReconstruct | src/app/_models/warehouse/wh-room.ts:7-10 | re-constructing a constructed room is the identity |
| WarehouseModel.MakeWarehouse | src/app/_models/warehouse/warehouse.ts:7-10 | a missing room list becomes empty; the length and order of rooms are kept, each room constructed from the one at the same position; the result is valid under a well-formed clock |
| WarehouseModel.WarehouseShape | src/app/_models/warehouse/warehouse.ts:9 | the number of rooms, the number of boxes in every room, the number of items in every box and the item total of every room are those of the stored record |
| WarehouseModel.WarehouseRoundTrip | src/app/_models/warehouse/warehouse.ts:7-10 | constructing from a valid constructed warehouse gives it back |
| WarehouseModel.WarehouseReconstruct | src/app/_models/warehouse/warehouse.ts:7-10 | re-constructing a constructed warehouse is the identity, so rebuilding before each save changes nothing once a tree has been built |
| WarehousesModel.MakeWarehouses | src/app/_models/warehouse/warehouses.ts:6-8 | a missing warehouse list becomes empty; length and order are kept, each warehouse constructed recursively; the result is valid under a well-formed clock |
| WarehousesModel.IdDropped | src/app/_models/warehouse/warehouses.ts:3-8 | the result does not depend on the document's other fields such as `id`: it carries the warehouse list only |
| WarehousesModel.WarehousesRoundTrip | src/app/_models/warehouse/warehouses.ts:6-8 | constructing from a valid constructed collection gives it back |
| WarehousesModel.WarehousesReconstruct | src/app/_models/warehouse/warehouses.ts:6-8 | re-constructing a constructed collection is the identity, whatever `id` the stored document had |
| WarehouseView.PushRoom | src/app/home/warehouse/warehouse.component.ts:102-106 | succeeds exactly when the room list exists; the list then grows by one, keeps every old room in place and ends with a room named "New Room", described "Describe here", with an empty box list |
| WarehouseView.PushBox | src/app/home/warehouse/warehouse.component.ts:119 | succeeds exactly when room k and its box list exist; only room k's box list changes, growing by a "New Box" at its end |
| WarehouseView.PushItem | src/app/home/warehouse/warehouse.component.ts:132 | succeeds exactly when box j of room k and its item list exist; only that item list changes, growing by a "New Item" at its end |
| WarehouseView.AddRoomCounts | src/app/home/warehouse/warehouse.component.ts:102-106 | adding a room adds one room and leaves the warehouse's numbers of boxes and items unchanged |
| WarehouseView.AddBoxCounts | src/app/home/warehouse/warehouse.component.ts:118-119 | adding a box adds exactly one box to the warehouse and leaves the numbers of rooms and items unchanged |
| WarehouseView.AddItemCounts | src/app/home/warehouse/warehouse.component.ts:131-132 | adding an item adds exactly one item to the warehouse and leaves the numbers of rooms and boxes unchanged |
| WarehouseView.SavedAfterAddRoom | src/app/home/warehouse/warehouse.component.ts:102-111 | the warehouse handed to save after adding a room is the rebuilt old one with one more room at the end, stamped with "now" |
| WarehouseView.SavedAfterAddBox | src/app/home/warehouse/warehouse.component.ts:118-124 | the warehouse handed to save after adding a box differs from the rebuilt old one only by a default box, stamped "now", at the end of room k |
| WarehouseView.SavedAfterAddItem | src/app/home/warehouse/warehouse.component.ts:131-137 | the warehouse handed to save after adding an item differs from the rebuilt old one only by a default item, both timestamps "now", at the end of box j of room k |
| WarehouseView.WarehouseViewComponent.constructor | src/app/home/warehouse/warehouse.component.ts:31-37 | starts with no warehouse, no user, level 0 and nothing selected, which satisfies the navigation invariant |
| WarehouseView.WarehouseViewComponent.OnUser | src/app/home/warehouse/warehouse.component.ts:47-56 | a signed-in user's uid is stored and a sign-out clears it; the loaded warehouse is left as it was |
| WarehouseView.WarehouseViewComponent.OnWarehouse | src/app/home/warehouse/warehouse.component.ts:51-53 | the emitted document, or null, becomes the current warehouse |
| WarehouseView.WarehouseViewComponent.EnterRoom | src/app/home/warehouse/warehouse.component.ts:61-64 | selects room i at level 1; the box selection and the tree are unchanged; from a consistent level-0 state the result is consistent |
| WarehouseView.WarehouseViewComponent.EnterBox | src/app/home/warehouse/warehouse.component.ts:66-69 | selects box j at level 2; the room selection and the tree are unchanged; from a consistent level-1 state the result is consistent |
| WarehouseView.WarehouseViewComponent.GoBack | src/app/home/warehouse/warehouse.component.ts:71-78 | level 2 goes to 1, clearing the box and keeping the room; level 1 goes to 0, clearing the room; any other level changes nothing; the level range and the navigation invariant are preserved |
| WarehouseView.WarehouseViewComponent.NavTitle | src/app/home/warehouse/warehouse.component.ts:81-95 | at level 1 with a room selected, that room's (possibly absent) name; at level 2 with a room and a box selected, that box's name; "" in every other state, including level 1 or 2 with a selection missing; it throws exactly when the selected node does not exist |
| WarehouseView.WarehouseViewComponent.EditGuard | src/app/home/warehouse/warehouse.component.ts:99-100 | an edit may proceed exactly when a non-empty user id and a warehouse are present; a missing or empty user id is reported as NotLoggedIn first, and a signed-in user without a warehouse as WarehouseNotFound |
| WarehouseView.WarehouseViewComponent.AddRoom | src/app/home/warehouse/warehouse.component.ts:98-112 | without user or warehouse, or without a room list, it fails and changes nothing; it succeeds exactly when the guard passes and PushRoom succeeds, the tree then becoming PushRoom of the old tree and save receiving the user id and the rebuilt tree |
| WarehouseView.WarehouseViewComponent.AddBox | src/app/home/warehouse/warehouse.component.ts:114-125 | without user or warehouse, or when room k or its box list is missing, it fails and changes nothing; it succeeds exactly when the guard passes and PushBox succeeds, the tree then becoming PushBox of the old tree and save receiving the user id and the rebuilt tree |
| WarehouseView.WarehouseViewComponent.AddItem | src/app/home/warehouse/warehouse.component.ts:127-138 | without user or warehouse, or when box j of room k or its item list is missing, it fails and changes nothing; it succeeds exactly when the guard passes and PushItem succeeds, the tree then becoming PushItem of the old tree and save receiving the user id and the rebuilt tree |
| WarehouseView.EnterAndGoBack | src/app/home/warehouse/warehouse.component.ts:61-78 | entering a room, then a box, then going back leaves level 1 with the room still selected and no box selected |
| NavigationService.WarehouseNavigationService.constructor | src/app/_services/warehouse/warehouse-navigation.service.ts:12 | the slot starts empty |
| NavigationService.WarehouseNavigationService.SetTarget | src/app/_services/warehouse/warehouse-navigation.service.ts:15-17 | the slot holds the given target, whatever it held before |
| NavigationService.WarehouseNavigationService.ConsumeTarget | src/app/_services/warehouse/warehouse-navigation.service.ts:19-23 | returns what the slot held, possibly null, and leaves it empty |
| NavigationService.SetThenConsumeTwice | src/app/_services/warehouse/warehouse-navigation.service.ts:15-23 | a target that is set is returned by the next consume with all three indices unchanged, and the consume after that returns null |
| NavigationService.LastWriterWins | src/app/_services/warehouse/warehouse-navigation.service.ts:15-17 | after two settings, the consume returns the second target |
| NavigationService.ConsumeEmpty | src/app/_services/warehouse/warehouse-navigation.service.ts:19-23 | consuming an empty slot returns null and leaves it empty, so the next consume returns null too |

## Left out

- The database gateway (`getByUser`, `save` with its JSON copy and merge write, `delete`) is a foreign SDK. The edits return the arguments of the `save` call as a `SaveCall` value. A failed save is not modelled, and the in-memory edit stays applied in that case just as it does in the source.
- The auth and document subscriptions of `ngOnInit` are RxJS wiring. `OnUser` and `OnWarehouse` model only what their callbacks assign.
- The `target$` observable of the navigation service is not modelled. Its subscribers are outside this model, and only the slot's value is.
- SharedElem.NormalizeTimestamp: one "now" serves a whole construction. The source calls `DateTime.now()` for each field, so two timestamps defaulted in one construction could differ by the time between the calls.
- SharedElem.NormalizeTimestamp: Luxon's clock and Firestore's `toDate().toISOString()` are the `Clock` parameter. The model does not check that their strings are valid ISO-8601 instants. It only assumes, where stated, that they are non-empty.
- JavaScript numbers are modelled as reals, so `NaN`, which is falsy, is not represented. Values of other kinds, such as numbers, are modelled only for timestamp fields. Names and descriptions are typed as optional strings.
- Aliasing is not modelled. The source pushes onto arrays shared with the object the document feed emitted. The model replaces the component's tree value instead.
- `createDummyWarehouse`, the search page's date formatting, translation, access roles, dialogs, the auto-resize directive, routing and bootstrap are framework or UI code.
- The navigation across several warehouses and the sorting, last-modified roll-up, search flattening and auto-descend are not in the component modelled here.
