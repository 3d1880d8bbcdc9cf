/**
 * The inoperative-device filter that runs once after the first detail
 * refresh: locks need a detail and a bridge, doorbells need a detail.
 */
module Inoperative {
  import opened Devices
  import opened RegistryModel

  /** A lock is kept when it has a detail whose bridge is present (online or not). */
  predicate LockKept(details: map<DeviceId, Detail>, id: DeviceId)
  {
    id in details && details[id].bridge.Some?
  }

  /** A lock with a detail but no bridge: its detail is dropped as well. */
  predicate Bridgeless(details: map<DeviceId, Detail>, id: DeviceId)
  {
    id in details && details[id].bridge.None?
  }

  /** The registry after the lock filter. */
  function PruneLocks(s: Registry): Registry
  {
    s.(locks := map id | id in s.locks && LockKept(s.details, id) :: s.locks[id],
       details := s.details - (set id | id in s.locks && Bridgeless(s.details, id)))
  }

  /** The registry after the doorbell filter: a doorbell stays when a detail is stored for it. */
  function PruneDoorbells(s: Registry): Registry
  {
    s.(doorbells := map id | id in s.doorbells && id in s.details :: s.doorbells[id])
  }

  /**
   * The lock filter, case by case: a lock without detail leaves the lock map
   * only; a lock whose detail has no bridge leaves the lock map and the
   * detail map; a lock with a bridge stays, with its detail. Nothing else
   * changes.
   */
  lemma LockFilterCases(s: Registry)
    ensures var r := PruneLocks(s);
      && r.doorbells == s.doorbells && r.houseIds == s.houseIds && r.events == s.events
      && (forall id :: id in s.locks && id !in s.details ==> id !in r.locks && id !in r.details)
      && (forall id :: id in s.locks && Bridgeless(s.details, id) ==> id !in r.locks && id !in r.details)
      && (forall id :: id in s.locks && LockKept(s.details, id) ==>
            id in r.locks && r.locks[id] == s.locks[id] && id in r.details && r.details[id] == s.details[id])
      && (forall id :: id in r.locks ==> id in s.locks)
      && (forall id :: id !in s.locks ==> (id in r.details <==> id in s.details))
      && (forall id :: id in r.details ==> r.details[id] == s.details[id])
  {
  }

  /**
   * The doorbell filter: a doorbell stays iff a detail is stored for it, and
   * the detail map is never touched.
   */
  lemma DoorbellFilterIff(s: Registry)
    ensures var r := PruneDoorbells(s);
      && r.details == s.details && r.locks == s.locks && r.houseIds == s.houseIds && r.events == s.events
      && (forall id :: id in r.doorbells <==> id in s.doorbells && id in s.details)
      && (forall id :: id in r.doorbells ==> r.doorbells[id] == s.doorbells[id])
  {
  }

  /** Both filters keep every surviving device stored under its own id. */
  lemma FiltersKeepKeys(s: Registry)
    requires KeyedById(s.locks) && KeyedById(s.doorbells)
    ensures KeyedById(PruneLocks(s).locks) && KeyedById(PruneDoorbells(PruneLocks(s)).doorbells)
  {
  }

  /**
   * After the lock filter and then the doorbell filter, every lock and every
   * doorbell left has a detail, and every lock left has a bridge.
   */
  lemma NoDanglingAfterFilters(s: Registry)
    ensures var r := PruneDoorbells(PruneLocks(s));
      && (forall id :: id in r.locks ==> id in r.details && r.details[id].bridge.Some?)
      && (forall id :: id in r.doorbells ==> id in r.details)
  {
  }
}
