/** An item: the leaf of the tree (src/app/_models/warehouse/wh-item.ts). */
module ItemModel {
  import opened SharedElem

  datatype RawItem = RawItem(base: RawShared, updatedTimestamp: JsValue)

  datatype WhItem = WhItem(base: Shared, updatedTimestamp: string)

  /** A constructed item has both timestamps. */
  predicate ValidItem(i: WhItem) {
    ValidShared(i.base) && i.updatedTimestamp != ""
  }

  /** The `WhItem` constructor: the shared fields, then the normalised update time. */
  function MakeItem(clock: Clock, data: RawItem): (r: WhItem)
    ensures r.base == MakeShared(clock, data.base)
    ensures r.updatedTimestamp == NormalizeTimestamp(clock, data.updatedTimestamp)
    ensures data.updatedTimestamp.Str? && data.updatedTimestamp.s != "" ==> r.updatedTimestamp == data.updatedTimestamp.s
    ensures data.updatedTimestamp == Undefined ==> r.updatedTimestamp == clock.now
    ensures WellFormed(clock) ==> ValidItem(r)
  {
    WhItem(MakeShared(clock, data.base), NormalizeTimestamp(clock, data.updatedTimestamp))
  }

  function ItemToRaw(i: WhItem): RawItem {
    RawItem(SharedToRaw(i.base), Str(i.updatedTimestamp))
  }

  /** Constructing from a constructed item gives it back. */
  lemma ItemRoundTrip(clock: Clock, i: WhItem)
    requires ValidItem(i)
    ensures MakeItem(clock, ItemToRaw(i)) == i
  {
  }

  /** Re-constructing a constructed item yields an equal item. */
  lemma ItemReconstruct(clock: Clock, data: RawItem)
    requires WellFormed(clock)
    ensures MakeItem(clock, ItemToRaw(MakeItem(clock, data))) == MakeItem(clock, data)
  {
    ItemRoundTrip(clock, MakeItem(clock, data));
  }
}
