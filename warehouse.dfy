/** A warehouse: a shared part and its list of rooms (src/app/_models/warehouse/warehouse.ts). */
module WarehouseModel {
  import opened Wrappers
  import opened SharedElem
  import opened ItemModel
  import opened BoxModel
  import opened RoomModel

  datatype RawWarehouse = RawWarehouse(base: RawShared, rooms: Option<seq<RawRoom>>)

  datatype Warehouse = Warehouse(base: Shared, rooms: seq<WhRoom>)

  /** `data.rooms ?? []` */
  function RawRooms(w: RawWarehouse): seq<RawRoom> {
    w.rooms.GetOr([])
  }

  predicate ValidWarehouse(w: Warehouse) {
    ValidShared(w.base) && forall k :: 0 <= k < |w.rooms| ==> ValidRoom(w.rooms[k])
  }

  /** `rooms.map(r => new WhRoom(r))` */
  function MakeRooms(clock: Clock, xs: seq<RawRoom>): seq<WhRoom> {
    seq(|xs|, k requires 0 <= k < |xs| => MakeRoom(clock, xs[k]))
  }

  /** The `Warehouse` constructor. */
  function MakeWarehouse(clock: Clock, data: RawWarehouse): (r: Warehouse)
    ensures r.base == MakeShared(clock, data.base)
    ensures data.rooms.None? ==> r.rooms == []
    ensures |r.rooms| == |RawRooms(data)|
    ensures forall k :: 0 <= k < |r.rooms| ==> r.rooms[k] == MakeRoom(clock, RawRooms(data)[k])
    ensures WellFormed(clock) ==> ValidWarehouse(r)
  {
    Warehouse(MakeShared(clock, data.base), MakeRooms(clock, RawRooms(data)))
  }

  function WarehouseToRaw(w: Warehouse): RawWarehouse {
    RawWarehouse(SharedToRaw(w.base), Some(seq(|w.rooms|, k requires 0 <= k < |w.rooms| => RoomToRaw(w.rooms[k]))))
  }

  /** Constructing a warehouse keeps the number of boxes and items at every path. */
  lemma WarehouseShape(clock: Clock, data: RawWarehouse)
    ensures var w := MakeWarehouse(clock, data);
            |w.rooms| == |RawRooms(data)| &&
            forall k :: 0 <= k < |w.rooms| ==>
              |w.rooms[k].boxes| == |RawBoxes(RawRooms(data)[k])| &&
              ItemTotal(w.rooms[k].boxes) == RawItemTotal(RawBoxes(RawRooms(data)[k])) &&
              forall j :: 0 <= j < |w.rooms[k].boxes| ==>
                |w.rooms[k].boxes[j].items| == |RawItems(RawBoxes(RawRooms(data)[k])[j])|
  {
    var w := MakeWarehouse(clock, data);
    forall k | 0 <= k < |w.rooms|
      ensures ItemTotal(w.rooms[k].boxes) == RawItemTotal(RawBoxes(RawRooms(data)[k]))
    {
      RoomItemTotal(clock, RawRooms(data)[k]);
    }
  }

  /** Constructing from a constructed warehouse gives it back. */
  lemma WarehouseRoundTrip(clock: Clock, w: Warehouse)
    requires ValidWarehouse(w)
    ensures MakeWarehouse(clock, WarehouseToRaw(w)) == w
  {
    var w' := MakeWarehouse(clock, WarehouseToRaw(w));
    forall k | 0 <= k < |w.rooms|
      ensures w'.rooms[k] == w.rooms[k]
    {
      RoomRoundTrip(clock, w.rooms[k]);
    }
  }

  /** Re-constructing a constructed warehouse is the identity. */
  lemma WarehouseReconstruct(clock: Clock, data: RawWarehouse)
    requires WellFormed(clock)
    ensures MakeWarehouse(clock, WarehouseToRaw(MakeWarehouse(clock, data))) == MakeWarehouse(clock, data)
  {
    WarehouseRoundTrip(clock, MakeWarehouse(clock, data));
  }
}
