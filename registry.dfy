/**
 * The device registry held by `AugustData`: locks and doorbells by id, the
 * detail snapshot of each device (and of each keypad) by id, the house ids the
 * activity subscription is scoped to, and the log of emitted events.
 * Hydration builds it from the two bulk listings.
 */
module RegistryModel {
  import opened Wrappers
  import opened Devices

  datatype Registry = Registry(
    locks: map<DeviceId, Device>,
    doorbells: map<DeviceId, Device>,
    details: map<DeviceId, Detail>,
    houseIds: set<HouseId>,
    events: seq<Event>)

  /** Every entry of `m` is stored under its own device id. */
  ghost predicate KeyedById(m: map<DeviceId, Device>)
  {
    forall id :: id in m ==> m[id].deviceId == id
  }

  /** `{device.device_id: device for device in devices}`: a later duplicate id overwrites an earlier one. */
  function ById(devices: seq<Device>): (m: map<DeviceId, Device>)
    ensures m.Keys == set d | d in devices :: d.deviceId
    ensures forall id :: id in m ==> m[id] in devices && m[id].deviceId == id
    decreases |devices|
  {
    if devices == [] then map[]
    else
      var init := devices[..|devices| - 1];
      var last := devices[|devices| - 1];
      assert devices == init + [last];
      ById(init)[last.deviceId := last]
  }

  /** The ids of the listed devices, in listing order. */
  function IdsOf(devices: seq<Device>): (ids: seq<DeviceId>)
    ensures |ids| == |devices|
    ensures forall k :: 0 <= k < |ids| ==> ids[k] == devices[k].deviceId
  {
    seq(|devices|, k requires 0 <= k < |devices| => devices[k].deviceId)
  }

  /** `{device.house_id for device in chain(locks, doorbells)}`. */
  function HouseIdsOf(devices: seq<Device>): set<HouseId>
  {
    set d | d in devices :: d.houseId
  }

  /** The registry after the listings are stored (before any detail is fetched). */
  function Hydrate(s: Registry, locksIn: Option<seq<Device>>, doorbellsIn: Option<seq<Device>>): Registry
  {
    var locks := OrEmpty(locksIn);
    var doorbells := OrEmpty(doorbellsIn);
    s.(doorbells := ById(doorbells), locks := ById(locks), houseIds := HouseIdsOf(locks + doorbells))
  }

  /** The device of the listing stored under an id is the last one listed with that id. */
  lemma {:induction false} ByIdLastWins(devices: seq<Device>, k: nat)
    requires k < |devices|
    requires forall j :: k < j < |devices| ==> devices[j].deviceId != devices[k].deviceId
    ensures devices[k].deviceId in ById(devices)
    ensures ById(devices)[devices[k].deviceId] == devices[k]
    decreases |devices|
  {
    var init := devices[..|devices| - 1];
    if k < |devices| - 1 {
      ByIdLastWins(init, k);
    }
  }

  /** With distinct ids, every listed device is stored under its own id. */
  lemma ByIdDistinct(devices: seq<Device>)
    requires forall i, j :: 0 <= i < j < |devices| ==> devices[i].deviceId != devices[j].deviceId
    ensures KeyedById(ById(devices))
    ensures forall k :: 0 <= k < |devices| ==> ById(devices)[devices[k].deviceId] == devices[k]
  {
  }

  /**
   * Hydration: the lock and doorbell maps are keyed exactly by the listed ids,
   * each entry is a listed device stored under its own id, the house-id set is
   * the union of all listed devices' house ids, and a missing listing counts as
   * an empty one. Details and events are not touched.
   */
  lemma HydrationShape(s: Registry, locksIn: Option<seq<Device>>, doorbellsIn: Option<seq<Device>>)
    ensures var h := Hydrate(s, locksIn, doorbellsIn);
      && h.locks.Keys == (set d | d in OrEmpty(locksIn) :: d.deviceId)
      && h.doorbells.Keys == (set d | d in OrEmpty(doorbellsIn) :: d.deviceId)
      && KeyedById(h.locks) && KeyedById(h.doorbells)
      && (forall id :: id in h.locks ==> h.locks[id] in OrEmpty(locksIn))
      && (forall id :: id in h.doorbells ==> h.doorbells[id] in OrEmpty(doorbellsIn))
      && h.houseIds == (set d | d in OrEmpty(locksIn) :: d.houseId) + (set d | d in OrEmpty(doorbellsIn) :: d.houseId)
      && h.details == s.details && h.events == s.events
    ensures Hydrate(s, None, doorbellsIn) == Hydrate(s, Some([]), doorbellsIn)
    ensures Hydrate(s, locksIn, None) == Hydrate(s, locksIn, Some([]))
  {
  }
}
