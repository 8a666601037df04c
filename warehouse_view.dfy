/**
 * The warehouse view (src/app/home/warehouse/warehouse.component.ts): a
 * three-level navigation state (rooms, boxes, items of one warehouse) and
 * the edits that append a default room, box or item to the document held
 * in memory, after which the whole warehouse is rebuilt and handed to the
 * database's `save`.
 */
module WarehouseView {
  import opened Wrappers
  import opened SharedElem
  import opened ItemModel
  import opened BoxModel
  import opened RoomModel
  import opened WarehouseModel

  /** Why an action ends with a thrown error. */
  datatype Fault =
    | NotLoggedIn       // 'User is not logged in'
    | WarehouseNotFound // 'Warehouse not found'
    | MissingNode       // a TypeError: an absent list, or an index with no element behind it

  /** The call the component makes to `warehouseDb.save`. */
  datatype SaveCall = SaveCall(uid: string, doc: Warehouse)

  const NewRoomName := "New Room"
  const NewBoxName := "New Box"
  const NewItemName := "New Item"
  const Placeholder := "Describe here"

  /** The records the component pushes: a name, a description and an empty child list, nothing else. */
  function NewRoom(): RawRoom {
    RawRoom(RawShared(Some(NewRoomName), Some(Placeholder), Undefined), Some([]))
  }

  function NewBox(): RawBox {
    RawBox(RawShared(Some(NewBoxName), Some(Placeholder), Undefined), Some([]))
  }

  function NewItem(): RawItem {
    RawItem(RawShared(Some(NewItemName), Some(Placeholder), Undefined), Undefined)
  }

  /** `!this.userUid` fails for an absent and for an empty user id. */
  predicate LoggedIn(uid: Option<string>) {
    uid.Some? && uid.value != ""
  }

  /** `warehouse.rooms[k]`, or None where that lookup yields `undefined` or throws. */
  function RoomAt(w: RawWarehouse, k: int): Option<RawRoom> {
    if w.rooms.Some? && 0 <= k < |w.rooms.value| then Some(w.rooms.value[k]) else None
  }

  /** `warehouse.rooms[k].boxes[j]`, or None where that lookup yields `undefined` or throws. */
  function BoxAt(w: RawWarehouse, k: int, j: int): Option<RawBox> {
    match RoomAt(w, k)
    case None => None
    case Some(room) =>
      if room.boxes.Some? && 0 <= j < |room.boxes.value| then Some(room.boxes.value[j]) else None
  }

  /** `currentWarehouse.rooms.push(...)`; None where `rooms` is absent. */
  function PushRoom(w: RawWarehouse): (r: Option<RawWarehouse>)
    ensures r.Some? <==> w.rooms.Some?
    ensures r.Some? ==>
      r.value.base == w.base && r.value.rooms.Some? &&
      |r.value.rooms.value| == |w.rooms.value| + 1 &&
      r.value.rooms.value[..|w.rooms.value|] == w.rooms.value &&
      r.value.rooms.value[|w.rooms.value|] == NewRoom()
  {
    if w.rooms.None? then None
    else Some(w.(rooms := Some(w.rooms.value + [NewRoom()])))
  }

  /** `currentWarehouse.rooms[k].boxes.push(...)`; None where that room or its `boxes` is absent. */
  function PushBox(w: RawWarehouse, k: int): (r: Option<RawWarehouse>)
    ensures r.Some? <==> RoomAt(w, k).Some? && RoomAt(w, k).value.boxes.Some?
    ensures r.Some? ==>
      r.value.base == w.base && r.value.rooms.Some? &&
      var rooms, rooms' := w.rooms.value, r.value.rooms.value;
      |rooms'| == |rooms| &&
      (forall k' :: 0 <= k' < |rooms| && k' != k ==> rooms'[k'] == rooms[k']) &&
      rooms'[k].base == rooms[k].base &&
      rooms'[k].boxes == Some(rooms[k].boxes.value + [NewBox()])
  {
    match RoomAt(w, k)
    case None => None
    case Some(room) =>
      if room.boxes.None? then None
      else
        var room' := room.(boxes := Some(room.boxes.value + [NewBox()]));
        Some(w.(rooms := Some(w.rooms.value[k := room'])))
  }

  /** `currentWarehouse.rooms[k].boxes[j].items.push(...)`; None where that box or its `items` is absent. */
  function PushItem(w: RawWarehouse, k: int, j: int): (r: Option<RawWarehouse>)
    ensures r.Some? <==> BoxAt(w, k, j).Some? && BoxAt(w, k, j).value.items.Some?
    ensures r.Some? ==>
      r.value.base == w.base && r.value.rooms.Some? &&
      var rooms, rooms' := w.rooms.value, r.value.rooms.value;
      |rooms'| == |rooms| &&
      (forall k' :: 0 <= k' < |rooms| && k' != k ==> rooms'[k'] == rooms[k']) &&
      rooms'[k].base == rooms[k].base &&
      rooms'[k].boxes.Some? && |rooms'[k].boxes.value| == |rooms[k].boxes.value| &&
      (forall j' :: 0 <= j' < |rooms[k].boxes.value| && j' != j ==> rooms'[k].boxes.value[j'] == rooms[k].boxes.value[j']) &&
      rooms'[k].boxes.value[j].base == rooms[k].boxes.value[j].base &&
      rooms'[k].boxes.value[j].items == Some(rooms[k].boxes.value[j].items.value + [NewItem()])
  {
    match BoxAt(w, k, j)
    case None => None
    case Some(box) =>
      if box.items.None? then None
      else
        var room := w.rooms.value[k];
        var box' := box.(items := Some(box.items.value + [NewItem()]));
        var room' := room.(boxes := Some(room.boxes.value[j := box']));
        Some(w.(rooms := Some(w.rooms.value[k := room'])))
  }

  // Counting the nodes of a stored warehouse, an absent list counting as empty.

  function BoxCount(rooms: seq<RawRoom>): nat {
    if rooms == [] then 0 else |RawBoxes(rooms[0])| + BoxCount(rooms[1..])
  }

  function ItemCount(rooms: seq<RawRoom>): nat {
    if rooms == [] then 0 else RawItemTotal(RawBoxes(rooms[0])) + ItemCount(rooms[1..])
  }

  lemma {:induction false} RawItemTotalAppend(boxes: seq<RawBox>, b: RawBox)
    ensures RawItemTotal(boxes + [b]) == RawItemTotal(boxes) + |RawItems(b)|
  {
    if boxes != [] {
      assert (boxes + [b])[1..] == boxes[1..] + [b];
      RawItemTotalAppend(boxes[1..], b);
    }
  }

  lemma {:induction false} RawItemTotalUpdate(boxes: seq<RawBox>, j: int, b: RawBox)
    requires 0 <= j < |boxes|
    ensures RawItemTotal(boxes[j := b]) + |RawItems(boxes[j])| == RawItemTotal(boxes) + |RawItems(b)|
  {
    if j > 0 {
      assert boxes[j := b][1..] == boxes[1..][j - 1 := b];
      RawItemTotalUpdate(boxes[1..], j - 1, b);
    } else {
      assert boxes[j := b][1..] == boxes[1..];
    }
  }

  lemma {:induction false} CountsAppend(rooms: seq<RawRoom>, room: RawRoom)
    ensures BoxCount(rooms + [room]) == BoxCount(rooms) + |RawBoxes(room)|
    ensures ItemCount(rooms + [room]) == ItemCount(rooms) + RawItemTotal(RawBoxes(room))
  {
    if rooms != [] {
      assert (rooms + [room])[1..] == rooms[1..] + [room];
      CountsAppend(rooms[1..], room);
    }
  }

  lemma {:induction false} CountsUpdate(rooms: seq<RawRoom>, k: int, room: RawRoom)
    requires 0 <= k < |rooms|
    ensures BoxCount(rooms[k := room]) + |RawBoxes(rooms[k])| == BoxCount(rooms) + |RawBoxes(room)|
    ensures ItemCount(rooms[k := room]) + RawItemTotal(RawBoxes(rooms[k])) == ItemCount(rooms) + RawItemTotal(RawBoxes(room))
  {
    if k > 0 {
      assert rooms[k := room][1..] == rooms[1..][k - 1 := room];
      CountsUpdate(rooms[1..], k - 1, room);
    } else {
      assert rooms[k := room][1..] == rooms[1..];
    }
  }

  /** Adding a room adds one room and no box or item. */
  lemma AddRoomCounts(w: RawWarehouse)
    requires w.rooms.Some?
    ensures var rooms' := PushRoom(w).value.rooms.value;
            |rooms'| == |w.rooms.value| + 1 &&
            BoxCount(rooms') == BoxCount(w.rooms.value) &&
            ItemCount(rooms') == ItemCount(w.rooms.value)
  {
    CountsAppend(w.rooms.value, NewRoom());
  }

  /** Adding a box adds exactly one box to the warehouse and no room or item. */
  lemma AddBoxCounts(w: RawWarehouse, k: int)
    requires PushBox(w, k).Some?
    ensures var rooms' := PushBox(w, k).value.rooms.value;
            |rooms'| == |w.rooms.value| &&
            BoxCount(rooms') == BoxCount(w.rooms.value) + 1 &&
            ItemCount(rooms') == ItemCount(w.rooms.value)
  {
    var room := w.rooms.value[k];
    var room' := PushBox(w, k).value.rooms.value[k];
    assert PushBox(w, k).value.rooms.value == w.rooms.value[k := room'];
    RawItemTotalAppend(room.boxes.value, NewBox());
    CountsUpdate(w.rooms.value, k, room');
  }

  /** Adding an item adds exactly one item to the warehouse and no room or box. */
  lemma AddItemCounts(w: RawWarehouse, k: int, j: int)
    requires PushItem(w, k, j).Some?
    ensures var rooms' := PushItem(w, k, j).value.rooms.value;
            |rooms'| == |w.rooms.value| &&
            BoxCount(rooms') == BoxCount(w.rooms.value) &&
            ItemCount(rooms') == ItemCount(w.rooms.value) + 1
  {
    var room := w.rooms.value[k];
    var box := room.boxes.value[j];
    var room' := PushItem(w, k, j).value.rooms.value[k];
    var box' := room'.boxes.value[j];
    assert PushItem(w, k, j).value.rooms.value == w.rooms.value[k := room'];
    assert room'.boxes.value == room.boxes.value[j := box'];
    RawItemTotalUpdate(room.boxes.value, j, box');
    CountsUpdate(w.rooms.value, k, room');
  }

  /** What `save` receives after adding a room: the rebuilt warehouse, ending with a default room stamped "now". */
  lemma SavedAfterAddRoom(clock: Clock, w: RawWarehouse)
    requires w.rooms.Some?
    ensures MakeWarehouse(clock, PushRoom(w).value) ==
            MakeWarehouse(clock, w).(rooms := MakeWarehouse(clock, w).rooms +
              [WhRoom(Shared(NewRoomName, Placeholder, clock.now), [])])
  {
    var before, after := MakeWarehouse(clock, w), MakeWarehouse(clock, PushRoom(w).value);
    assert after.rooms == before.rooms + [WhRoom(Shared(NewRoomName, Placeholder, clock.now), [])];
  }

  /** What `save` receives after adding a box: only room `k` differs, by a default box stamped "now" at its end. */
  lemma SavedAfterAddBox(clock: Clock, w: RawWarehouse, k: int)
    requires PushBox(w, k).Some?
    ensures var before, after := MakeWarehouse(clock, w), MakeWarehouse(clock, PushBox(w, k).value);
            after == before.(rooms := before.rooms[k := before.rooms[k].(boxes := before.rooms[k].boxes +
              [WhBox(Shared(NewBoxName, Placeholder, clock.now), [])])])
  {
    var before, after := MakeWarehouse(clock, w), MakeWarehouse(clock, PushBox(w, k).value);
    assert after.rooms[k].boxes == before.rooms[k].boxes + [WhBox(Shared(NewBoxName, Placeholder, clock.now), [])];
  }

  /** What `save` receives after adding an item: only box `j` of room `k` differs, by a default item stamped "now" at its end. */
  lemma SavedAfterAddItem(clock: Clock, w: RawWarehouse, k: int, j: int)
    requires PushItem(w, k, j).Some?
    ensures var before, after := MakeWarehouse(clock, w), MakeWarehouse(clock, PushItem(w, k, j).value);
            var room := before.rooms[k];
            after == before.(rooms := before.rooms[k := room.(boxes := room.boxes[j := room.boxes[j].(items :=
              room.boxes[j].items + [WhItem(Shared(NewItemName, Placeholder, clock.now), clock.now)])])])
  {
    var before, after := MakeWarehouse(clock, w), MakeWarehouse(clock, PushItem(w, k, j).value);
    var room := before.rooms[k];
    assert after.rooms[k].boxes[j].items == room.boxes[j].items + [WhItem(Shared(NewItemName, Placeholder, clock.now), clock.now)];
    assert after.rooms[k].boxes == room.boxes[j := room.boxes[j].(items := after.rooms[k].boxes[j].items)];
  }

  class WarehouseViewComponent {
    var currentWarehouse: Option<RawWarehouse>
    var userUid: Option<string>

    // navigation state: 0 = rooms, 1 = boxes, 2 = items
    var viewLevel: int
    var selectedRoomIndex: Option<int>
    var selectedBoxIndex: Option<int>

    /** Level 0 selects nothing, level 1 a room, level 2 a room and a box. */
    predicate NavigationConsistent()
      reads this
    {
      (viewLevel == 0 && selectedRoomIndex.None? && selectedBoxIndex.None?) ||
      (viewLevel == 1 && selectedRoomIndex.Some? && selectedBoxIndex.None?) ||
      (viewLevel == 2 && selectedRoomIndex.Some? && selectedBoxIndex.Some?)
    }

    predicate LevelInRange()
      reads this
    {
      0 <= viewLevel <= 2
    }

    constructor ()
      ensures currentWarehouse == None && userUid == None
      ensures viewLevel == 0 && selectedRoomIndex == None && selectedBoxIndex == None
      ensures NavigationConsistent() && LevelInRange()
    {
      currentWarehouse := None;
      userUid := None;
      viewLevel := 0;
      selectedRoomIndex := None;
      selectedBoxIndex := None;
    }

    /** The auth feed emitted a user (its uid) or no user; the loaded warehouse is kept either way. */
    method OnUser(user: Option<string>)
      modifies this`userUid
      ensures userUid == user
    {
      userUid := user;
    }

    /** The warehouse feed emitted a document or null. */
    method OnWarehouse(w: Option<RawWarehouse>)
      modifies this`currentWarehouse
      ensures currentWarehouse == w
    {
      currentWarehouse := w;
    }

    method EnterRoom(index: int)
      modifies this`selectedRoomIndex, this`viewLevel
      ensures selectedRoomIndex == Some(index) && viewLevel == 1
      ensures selectedBoxIndex == old(selectedBoxIndex) && currentWarehouse == old(currentWarehouse)
      ensures LevelInRange()
      ensures old(NavigationConsistent()) && old(viewLevel) == 0 ==> NavigationConsistent()
    {
      selectedRoomIndex := Some(index);
      viewLevel := 1;
    }

    method EnterBox(index: int)
      modifies this`selectedBoxIndex, this`viewLevel
      ensures selectedBoxIndex == Some(index) && viewLevel == 2
      ensures selectedRoomIndex == old(selectedRoomIndex) && currentWarehouse == old(currentWarehouse)
      ensures LevelInRange()
      ensures old(NavigationConsistent()) && old(viewLevel) == 1 ==> NavigationConsistent()
    {
      selectedBoxIndex := Some(index);
      viewLevel := 2;
    }

    method GoBack()
      modifies this`selectedRoomIndex, this`selectedBoxIndex, this`viewLevel
      ensures old(viewLevel) == 2 ==>
        viewLevel == 1 && selectedBoxIndex == None && selectedRoomIndex == old(selectedRoomIndex)
      ensures old(viewLevel) == 1 ==>
        viewLevel == 0 && selectedRoomIndex == None && selectedBoxIndex == old(selectedBoxIndex)
      ensures old(viewLevel) != 1 && old(viewLevel) != 2 ==>
        viewLevel == old(viewLevel) && selectedRoomIndex == old(selectedRoomIndex) && selectedBoxIndex == old(selectedBoxIndex)
      ensures currentWarehouse == old(currentWarehouse)
      ensures old(LevelInRange()) ==> LevelInRange()
      ensures old(NavigationConsistent()) ==> NavigationConsistent()
    {
      if viewLevel == 2 {
        selectedBoxIndex := None;
        viewLevel := 1;
      } else if viewLevel == 1 {
        selectedRoomIndex := None;
        viewLevel := 0;
      }
    }

    /**
     * `getNavTitle`: the selected room's name at level 1, the selected box's
     * name at level 2, `''` otherwise; a name may be absent (`undefined`),
     * and a selection with no node behind it throws.
     */
    function NavTitle(warehouse: RawWarehouse): (r: Result<Option<string>, Fault>)
      reads this
      ensures r.Failure? ==> r.error == MissingNode
      ensures r.Failure? <==>
        (viewLevel == 1 && selectedRoomIndex.Some? && RoomAt(warehouse, selectedRoomIndex.value).None?) ||
        (viewLevel == 2 && selectedRoomIndex.Some? && selectedBoxIndex.Some? &&
         BoxAt(warehouse, selectedRoomIndex.value, selectedBoxIndex.value).None?)
      ensures viewLevel == 1 && selectedRoomIndex.Some? && RoomAt(warehouse, selectedRoomIndex.value).Some? ==>
        r == Success(RoomAt(warehouse, selectedRoomIndex.value).value.base.name)
      ensures viewLevel == 2 && selectedRoomIndex.Some? && selectedBoxIndex.Some? &&
              BoxAt(warehouse, selectedRoomIndex.value, selectedBoxIndex.value).Some? ==>
        r == Success(BoxAt(warehouse, selectedRoomIndex.value, selectedBoxIndex.value).value.base.name)
      ensures !(viewLevel == 1 && selectedRoomIndex.Some?) &&
              !(viewLevel == 2 && selectedRoomIndex.Some? && selectedBoxIndex.Some?) ==>
        r == Success(Some(""))
    {
      if viewLevel == 1 && selectedRoomIndex.Some? then
        match RoomAt(warehouse, selectedRoomIndex.value)
        case Some(room) => Success(room.base.name)
        case None => Failure(MissingNode)
      else if viewLevel == 2 && selectedBoxIndex.Some? && selectedRoomIndex.Some? then
        match BoxAt(warehouse, selectedRoomIndex.value, selectedBoxIndex.value)
        case Some(box) => Success(box.base.name)
        case None => Failure(MissingNode)
      else
        Success(Some(""))
    }

    /** The checks every edit starts with, in the source's order. */
    function EditGuard(): (r: Option<Fault>)
      reads this
      ensures r.None? <==> LoggedIn(userUid) && currentWarehouse.Some?
      ensures r == Some(NotLoggedIn) <==> !LoggedIn(userUid)
      ensures r == Some(WarehouseNotFound) <==> LoggedIn(userUid) && currentWarehouse.None?
    {
      if !LoggedIn(userUid) then Some(NotLoggedIn)
      else if currentWarehouse.None? then Some(WarehouseNotFound)
      else None
    }

    method AddRoom(clock: Clock) returns (r: Result<SaveCall, Fault>)
      modifies this`currentWarehouse
      ensures old(EditGuard()).Some? ==> r == Failure(old(EditGuard()).value)
      ensures old(EditGuard()).None? && PushRoom(old(currentWarehouse).value).None? ==> r == Failure(MissingNode)
      ensures r.Failure? ==> currentWarehouse == old(currentWarehouse)
      ensures r.Success? <==> old(EditGuard()).None? && PushRoom(old(currentWarehouse).value).Some?
      ensures r.Success? ==>
        currentWarehouse == PushRoom(old(currentWarehouse).value) &&
        r.value == SaveCall(userUid.value, MakeWarehouse(clock, currentWarehouse.value))
    {
      var guard := EditGuard();
      if guard.Some? {
        return Failure(guard.value);
      }
      var pushed := PushRoom(currentWarehouse.value);
      if pushed.None? {
        return Failure(MissingNode);
      }
      currentWarehouse := pushed;
      r := Success(SaveCall(userUid.value, MakeWarehouse(clock, pushed.value)));
    }

    method AddBox(clock: Clock, roomIndex: int) returns (r: Result<SaveCall, Fault>)
      modifies this`currentWarehouse
      ensures old(EditGuard()).Some? ==> r == Failure(old(EditGuard()).value)
      ensures old(EditGuard()).None? && PushBox(old(currentWarehouse).value, roomIndex).None? ==> r == Failure(MissingNode)
      ensures r.Failure? ==> currentWarehouse == old(currentWarehouse)
      ensures r.Success? <==> old(EditGuard()).None? && PushBox(old(currentWarehouse).value, roomIndex).Some?
      ensures r.Success? ==>
        currentWarehouse == PushBox(old(currentWarehouse).value, roomIndex) &&
        r.value == SaveCall(userUid.value, MakeWarehouse(clock, currentWarehouse.value))
    {
      var guard := EditGuard();
      if guard.Some? {
        return Failure(guard.value);
      }
      var pushed := PushBox(currentWarehouse.value, roomIndex);
      if pushed.None? {
        return Failure(MissingNode);
      }
      currentWarehouse := pushed;
      r := Success(SaveCall(userUid.value, MakeWarehouse(clock, pushed.value)));
    }

    method AddItem(clock: Clock, roomIndex: int, boxIndex: int) returns (r: Result<SaveCall, Fault>)
      modifies this`currentWarehouse
      ensures old(EditGuard()).Some? ==> r == Failure(old(EditGuard()).value)
      ensures old(EditGuard()).None? && PushItem(old(currentWarehouse).value, roomIndex, boxIndex).None? ==> r == Failure(MissingNode)
      ensures r.Failure? ==> currentWarehouse == old(currentWarehouse)
      ensures r.Success? <==> old(EditGuard()).None? && PushItem(old(currentWarehouse).value, roomIndex, boxIndex).Some?
      ensures r.Success? ==>
        currentWarehouse == PushItem(old(currentWarehouse).value, roomIndex, boxIndex) &&
        r.value == SaveCall(userUid.value, MakeWarehouse(clock, currentWarehouse.value))
    {
      var guard := EditGuard();
      if guard.Some? {
        return Failure(guard.value);
      }
      var pushed := PushItem(currentWarehouse.value, roomIndex, boxIndex);
      if pushed.None? {
        return Failure(MissingNode);
      }
      currentWarehouse := pushed;
      r := Success(SaveCall(userUid.value, MakeWarehouse(clock, pushed.value)));
    }
  }

  /** Down to a box and back up one level: the room stays selected, the box does not. */
  method EnterAndGoBack(room: int, box: int) returns (level: int, roomSel: Option<int>, boxSel: Option<int>)
    ensures level == 1 && roomSel == Some(room) && boxSel == None
  {
    var view := new WarehouseViewComponent();
    view.EnterRoom(room);
    view.EnterBox(box);
    view.GoBack();
    level, roomSel, boxSel := view.viewLevel, view.selectedRoomIndex, view.selectedBoxIndex;
  }
}
