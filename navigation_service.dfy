/**
 * A one-slot mailbox for "open this box" requests between pages
 * (src/app/_services/warehouse/warehouse-navigation.service.ts).
 */
module NavigationService {
  import opened Wrappers

  datatype NavTarget = NavTarget(warehouseIndex: int, roomIndex: int, boxIndex: int)

  class WarehouseNavigationService {
    var target: Option<NavTarget>

    constructor ()
      ensures target == None
    {
      target := None;
    }

    method SetTarget(t: NavTarget)
      modifies this
      ensures target == Some(t)
    {
      target := Some(t);
    }

    /** Reads the slot and clears it. */
    method ConsumeTarget() returns (r: Option<NavTarget>)
      modifies this
      ensures r == old(target) && target == None
    {
      r := target;
      target := None;
    }
  }

  /** A target set is consumed exactly once, with all three indices as given. */
  method SetThenConsumeTwice(t: NavTarget) returns (first: Option<NavTarget>, second: Option<NavTarget>)
    ensures first == Some(t) && second == None
    ensures first.value.warehouseIndex == t.warehouseIndex && first.value.roomIndex == t.roomIndex &&
            first.value.boxIndex == t.boxIndex
  {
    var service := new WarehouseNavigationService();
    service.SetTarget(t);
    first := service.ConsumeTarget();
    second := service.ConsumeTarget();
  }

  /** The last target set wins. */
  method LastWriterWins(t1: NavTarget, t2: NavTarget) returns (r: Option<NavTarget>)
    ensures r == Some(t2)
  {
    var service := new WarehouseNavigationService();
    service.SetTarget(t1);
    service.SetTarget(t2);
    r := service.ConsumeTarget();
  }

  /** Consuming a fresh service's empty slot gives null and leaves it empty. */
  method ConsumeEmpty() returns (first: Option<NavTarget>, second: Option<NavTarget>)
    ensures first == None && second == None
  {
    var service := new WarehouseNavigationService();
    first := service.ConsumeTarget();
    second := service.ConsumeTarget();
  }
}
