/** A room: a shared part and its list of boxes (src/app/_models/warehouse/wh-room.ts). */
module RoomModel {
  import opened Wrappers
  import opened SharedElem
  import opened ItemModel
  import opened BoxModel

  datatype RawRoom = RawRoom(base: RawShared, boxes: Option<seq<RawBox>>)

  datatype WhRoom = WhRoom(base: Shared, boxes: seq<WhBox>)

  /** `data.boxes ?? []` */
  function RawBoxes(r: RawRoom): seq<RawBox> {
    r.boxes.GetOr([])
  }

  predicate ValidRoom(r: WhRoom) {
    ValidShared(r.base) && forall j :: 0 <= j < |r.boxes| ==> ValidBox(r.boxes[j])
  }

  /** `boxes.map(b => new WhBox(b))` */
  function MakeBoxes(clock: Clock, xs: seq<RawBox>): seq<WhBox> {
    seq(|xs|, j requires 0 <= j < |xs| => MakeBox(clock, xs[j]))
  }

  /** The `WhRoom` constructor. */
  function MakeRoom(clock: Clock, data: RawRoom): (r: WhRoom)
    ensures r.base == MakeShared(clock, data.base)
    ensures data.boxes.None? ==> r.boxes == []
    ensures |r.boxes| == |RawBoxes(data)|
    ensures forall j :: 0 <= j < |r.boxes| ==> r.boxes[j] == MakeBox(clock, RawBoxes(data)[j])
    ensures WellFormed(clock) ==> ValidRoom(r)
  {
    WhRoom(MakeShared(clock, data.base), MakeBoxes(clock, RawBoxes(data)))
  }

  function RoomToRaw(r: WhRoom): RawRoom {
    RawRoom(SharedToRaw(r.base), Some(seq(|r.boxes|, j requires 0 <= j < |r.boxes| => BoxToRaw(r.boxes[j]))))
  }

  /** The number of items in a list of constructed boxes. */
  function ItemTotal(boxes: seq<WhBox>): nat {
    if boxes == [] then 0 else |boxes[0].items| + ItemTotal(boxes[1..])
  }

  /** The number of items in a list of stored boxes, an absent list counting as empty. */
  function RawItemTotal(boxes: seq<RawBox>): nat {
    if boxes == [] then 0 else |RawItems(boxes[0])| + RawItemTotal(boxes[1..])
  }

  /** Rebuilding a list of boxes keeps the number of items in it. */
  lemma {:induction false} MakeBoxesItemTotal(clock: Clock, xs: seq<RawBox>)
    ensures ItemTotal(MakeBoxes(clock, xs)) == RawItemTotal(xs)
  {
    if xs != [] {
      assert MakeBoxes(clock, xs)[1..] == MakeBoxes(clock, xs[1..]);
      MakeBoxesItemTotal(clock, xs[1..]);
    }
  }

  /** Constructing a room keeps the total number of items across its boxes. */
  lemma RoomItemTotal(clock: Clock, data: RawRoom)
    ensures ItemTotal(MakeRoom(clock, data).boxes) == RawItemTotal(RawBoxes(data))
  {
    MakeBoxesItemTotal(clock, RawBoxes(data));
  }

  /** Constructing from a constructed room gives it back. */
  lemma RoomRoundTrip(clock: Clock, r: WhRoom)
    requires ValidRoom(r)
    ensures MakeRoom(clock, RoomToRaw(r)) == r
  {
    var r' := MakeRoom(clock, RoomToRaw(r));
    forall j | 0 <= j < |r.boxes|
      ensures r'.boxes[j] == r.boxes[j]
    {
      BoxRoundTrip(clock, r.boxes[j]);
    }
  }

  /** Re-constructing a constructed room is the identity. */
  lemma RoomReconstruct(clock: Clock, data: RawRoom)
    requires WellFormed(clock)
    ensures MakeRoom(clock, RoomToRaw(MakeRoom(clock, data))) == MakeRoom(clock, data)
  {
    RoomRoundTrip(clock, MakeRoom(clock, data));
  }
}
