/** The root of a user's tree: the list of warehouses (src/app/_models/warehouse/warehouses.ts). */
module WarehousesModel {
  import opened Wrappers
  import opened SharedElem
  import opened WarehouseModel

  /** The stored document; `id` is the field the database read adds. */
  datatype RawWarehouses = RawWarehouses(warehouses: Option<seq<RawWarehouse>>, id: Option<string>)

  /** The constructed collection carries the list and nothing else. */
  datatype Warehouses = Warehouses(warehouses: seq<Warehouse>)

  /** `data.warehouses ?? []` */
  function RawWarehouseList(data: RawWarehouses): seq<RawWarehouse> {
    data.warehouses.GetOr([])
  }

  predicate ValidWarehouses(ws: Warehouses) {
    forall n :: 0 <= n < |ws.warehouses| ==> ValidWarehouse(ws.warehouses[n])
  }

  /** The `Warehouses` constructor. */
  function MakeWarehouses(clock: Clock, data: RawWarehouses): (r: Warehouses)
    ensures data.warehouses.None? ==> r.warehouses == []
    ensures |r.warehouses| == |RawWarehouseList(data)|
    ensures forall n :: 0 <= n < |r.warehouses| ==> r.warehouses[n] == MakeWarehouse(clock, RawWarehouseList(data)[n])
    ensures WellFormed(clock) ==> ValidWarehouses(r)
  {
    var xs := RawWarehouseList(data);
    Warehouses(seq(|xs|, n requires 0 <= n < |xs| => MakeWarehouse(clock, xs[n])))
  }

  function WarehousesToRaw(ws: Warehouses): RawWarehouses {
    RawWarehouses(Some(seq(|ws.warehouses|, n requires 0 <= n < |ws.warehouses| => WarehouseToRaw(ws.warehouses[n]))), None)
  }

  /** Any other field of the stored document, such as its `id`, is dropped. */
  lemma IdDropped(clock: Clock, ws: Option<seq<RawWarehouse>>, id1: Option<string>, id2: Option<string>)
    ensures MakeWarehouses(clock, RawWarehouses(ws, id1)) == MakeWarehouses(clock, RawWarehouses(ws, id2))
  {
  }

  /** Constructing from a constructed collection gives it back. */
  lemma WarehousesRoundTrip(clock: Clock, ws: Warehouses)
    requires ValidWarehouses(ws)
    ensures MakeWarehouses(clock, WarehousesToRaw(ws)) == ws
  {
    var ws' := MakeWarehouses(clock, WarehousesToRaw(ws));
    forall n | 0 <= n < |ws.warehouses|
      ensures ws'.warehouses[n] == ws.warehouses[n]
    {
      WarehouseRoundTrip(clock, ws.warehouses[n]);
    }
  }

  /** Re-constructing a constructed collection is the identity, whatever `id` the stored document had. */
  lemma WarehousesReconstruct(clock: Clock, data: RawWarehouses)
    requires WellFormed(clock)
    ensures MakeWarehouses(clock, WarehousesToRaw(MakeWarehouses(clock, data))) == MakeWarehouses(clock, data)
  {
    WarehousesRoundTrip(clock, MakeWarehouses(clock, data));
  }
}
