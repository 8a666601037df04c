/** A box: a shared part and its list of items (src/app/_models/warehouse/wh-box.ts). */
module BoxModel {
  import opened Wrappers
  import opened SharedElem
  import opened ItemModel

  datatype RawBox = RawBox(base: RawShared, items: Option<seq<RawItem>>)

  datatype WhBox = WhBox(base: Shared, items: seq<WhItem>)

  /** `data.items ?? []` */
  function RawItems(b: RawBox): seq<RawItem> {
    b.items.GetOr([])
  }

  predicate ValidBox(b: WhBox) {
    ValidShared(b.base) && forall i :: 0 <= i < |b.items| ==> ValidItem(b.items[i])
  }

  /** `items.map(i => new WhItem(i))` */
  function MakeItems(clock: Clock, xs: seq<RawItem>): seq<WhItem> {
    seq(|xs|, i requires 0 <= i < |xs| => MakeItem(clock, xs[i]))
  }

  /** The `WhBox` constructor. */
  function MakeBox(clock: Clock, data: RawBox): (r: WhBox)
    ensures r.base == MakeShared(clock, data.base)
    ensures data.items.None? ==> r.items == []
    ensures |r.items| == |RawItems(data)|
    ensures forall i :: 0 <= i < |r.items| ==> r.items[i] == MakeItem(clock, RawItems(data)[i])
    ensures WellFormed(clock) ==> ValidBox(r)
  {
    WhBox(MakeShared(clock, data.base), MakeItems(clock, RawItems(data)))
  }

  function BoxToRaw(b: WhBox): RawBox {
    RawBox(SharedToRaw(b.base), Some(seq(|b.items|, i requires 0 <= i < |b.items| => ItemToRaw(b.items[i]))))
  }

  /** Constructing from a constructed box gives it back. */
  lemma BoxRoundTrip(clock: Clock, b: WhBox)
    requires ValidBox(b)
    ensures MakeBox(clock, BoxToRaw(b)) == b
  {
    var r := MakeBox(clock, BoxToRaw(b));
    forall i | 0 <= i < |b.items|
      ensures r.items[i] == b.items[i]
    {
      ItemRoundTrip(clock, b.items[i]);
    }
  }

  /** Re-constructing a constructed box is the identity. */
  lemma BoxReconstruct(clock: Clock, data: RawBox)
    requires WellFormed(clock)
    ensures MakeBox(clock, BoxToRaw(MakeBox(clock, data))) == MakeBox(clock, data)
  {
    BoxRoundTrip(clock, MakeBox(clock, data));
  }
}
