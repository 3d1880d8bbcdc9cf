/**
 * `AugustData`: the object that owns the device maps and updates them in
 * place. Each state-changing method is proved to leave the registry exactly
 * as the corresponding function of modules Refresh, Inoperative and Setup
 * describes. The backend's answers and the reads of the push connection are
 * inputs; the host's signals and discovery flows go to an event log.
 */
module AugustRuntime {
  import opened Wrappers
  import opened Devices
  import opened LiveAttrs
  import opened RegistryModel
  import opened Refresh
  import opened Inoperative
  import opened Setup

  /** The integration's domain, the first component of its device-registry identifiers. */
  const Domain: string := "august"

  /** What a state-changing backend command answers. */
  datatype ApiOutcome<R> =
    | ApiOk(value: R)
    | AugustApiError(message: string)     // AugustApiAIOHTTPError, shown as its message
    | OtherApiException(name: string)     // any other exception, not handled here

  /** What the command wrapper hands to its caller. */
  datatype CommandResult<R> =
    | CommandOk(value: R)
    | CommandFailed(message: string)      // the host's HomeAssistantError
    | CommandRaised(name: string)         // the other exception, propagated unchanged

  class AugustData {
    var locksById: map<DeviceId, Device>
    var doorbellsById: map<DeviceId, Device>
    var deviceDetailById: map<DeviceId, Detail>
    var houseIds: set<HouseId>
    /** Update signals and discovery flows emitted so far, oldest first. */
    var events: seq<Event>

    /** The registry these fields hold. */
    function State(): Registry
      reads this
    {
      Registry(locksById, doorbellsById, deviceDetailById, houseIds, events)
    }

    /** Every device is stored under its own id (hydration builds the maps that way). */
    ghost predicate Valid()
      reads this
    {
      Keyed(State())
    }

    constructor ()
      ensures Valid()
      ensures State() == Registry(map[], map[], map[], {}, [])
    {
      locksById := map[];
      doorbellsById := map[];
      deviceDetailById := map[];
      houseIds := {};
      events := [];
    }

    /**
     * Stores the listings, refreshes every listed device in listing order
     * (push is not connected yet), then prunes inoperative locks and
     * doorbells and picks the targets of the initial sync.
     */
    method AsyncSetup(locks: Option<seq<Device>>, doorbells: Option<seq<Device>>, outcomes: seq<FetchOutcome>)
      returns (r: SetupResult)
      requires |outcomes| == |OrEmpty(locks)| + |OrEmpty(doorbells)|
      modifies this
      ensures Valid()
      ensures (State(), r) == SetupData(old(State()), locks, doorbells, outcomes)
    {
      var lockList := OrEmpty(locks);
      var doorbellList := OrEmpty(doorbells);
      doorbellsById := ById(doorbellList);
      locksById := ById(lockList);
      houseIds := HouseIdsOf(lockList + doorbellList);
      assert State() == Hydrate(old(State()), locks, doorbells);
      var ids := IdsOf(lockList + doorbellList);
      var refreshed := RefreshDeviceDetailByIds(ids, outcomes, Steady(|ids|, false));
      if refreshed.Escaped? {
        return SetupEscaped(refreshed.deviceId, refreshed.failure);
      }
      RemoveInoperativeLocks();
      RemoveInoperativeDoorbells();
      if locksById != map[] {
        r := SetupDone(Some(InitialSyncTargets(State())));
      } else {
        r := SetupDone(None);
      }
    }

    /** Refreshes each id in sequence; timeouts and connection errors are logged and skipped. */
    method RefreshDeviceDetailByIds(ids: seq<DeviceId>, outcomes: seq<FetchOutcome>, pushes: seq<PushReads>)
      returns (r: RefreshResult)
      requires |outcomes| == |ids| && |pushes| == |ids| && Valid()
      modifies this
      ensures Valid()
      ensures (State(), r) == RefreshMany(old(State()), ids, outcomes, pushes)
    {
      var i := 0;
      while i < |ids|
        invariant 0 <= i <= |ids|
        invariant Valid()
        invariant RefreshMany(State(), ids[i..], outcomes[i..], pushes[i..]) == RefreshMany(old(State()), ids, outcomes, pushes)
      {
        assert ids[i..][0] == ids[i] && outcomes[i..][0] == outcomes[i] && pushes[i..][0] == pushes[i];
        assert ids[i..][1..] == ids[i + 1..] && outcomes[i..][1..] == outcomes[i + 1..] && pushes[i..][1..] == pushes[i + 1..];
        var o := RefreshDeviceDetailById(ids[i], outcomes[i], pushes[i]);
        if o.Fail? && !Caught(o.error) {
          return Escaped(ids[i], o.error);
        }
        i := i + 1;
      }
      r := Completed;
    }

    /** Re-fetches a doorbell's (camera's) detail. */
    method RefreshCameraById(id: DeviceId, outcome: FetchOutcome) returns (r: Outcome<Failure>)
      requires Valid()
      modifies this
      ensures Valid()
      ensures (State(), r) == RefreshCamera(old(State()), id, outcome)
    {
      if id !in doorbellsById {
        return Fail(NotADoorbell);
      }
      r := UpdateDeviceDetail(doorbellsById[id], outcome);
    }

    /**
     * Refreshes one device, protecting a lock's live attributes while push is
     * connected; `p` gives what the two connection checks see.
     */
    method RefreshDeviceDetailById(id: DeviceId, outcome: FetchOutcome, p: PushReads) returns (r: Outcome<Failure>)
      requires Valid()
      modifies this
      ensures Valid()
      ensures (State(), r) == RefreshOne(old(State()), id, outcome, p)
    {
      if id in locksById {
        var saved: Option<map<LiveAttr, Value>> := None;
        if p.beforeFetch {
          if id !in deviceDetailById {
            return Fail(MissingPriorDetail);
          }
          saved := Some(SaveLiveAttrs(deviceDetailById[id]));
        }
        r := UpdateDeviceDetail(locksById[id], outcome);
        if r.Fail? {
          return;
        }
        if p.afterFetch {
          if saved.None? {
            // the saved attributes were never bound
            return Fail(UnsavedAttrs);
          }
          var restored := RestoreLiveAttrs(deviceDetailById[id], saved.value);
          deviceDetailById := deviceDetailById[id := restored];
        }
        // only a lock's detail carries a keypad
        if id in deviceDetailById && deviceDetailById[id].keypad.Some? {
          var keypad := deviceDetailById[id].keypad.value;
          deviceDetailById := deviceDetailById[keypad.deviceId := keypad];
        }
      } else if id in doorbellsById {
        r := UpdateDeviceDetail(doorbellsById[id], outcome);
        if r.Fail? {
          return;
        }
      }
      r := Pass;
      events := events + [DeviceUpdated(id)];
    }

    /** Fetches and stores one device's detail. */
    method UpdateDeviceDetail(device: Device, outcome: FetchOutcome) returns (r: Outcome<Failure>)
      modifies this
      ensures old(Valid()) ==> Valid()
      ensures (State(), r) == UpdateDetail(old(State()), device, outcome)
    {
      match outcome
      case FetchTimeout =>
        r := Fail(TimedOut);
      case FetchCannotConnect =>
        r := Fail(CannotConnectError);
      case FetchClientError =>
        // the error is logged and swallowed; reading the unbound result then raises
        r := Fail(UnboundDetail);
      case Fetched(detail) =>
        // a key that changes after startup needs a new discovery
        if detail.kind == LockKind && detail.offlineKey != "" {
          events := events + [DiscoveryFor(detail)];
        } else {
          assert events + DiscoveryEvents(detail) == events;
        }
        deviceDetailById := deviceDetailById[device.deviceId := detail];
        r := Pass;
    }

    /** Looks a device up by id, the lock map first. */
    function GetDevice(id: DeviceId): (r: Option<Device>)
      reads this
      ensures r.Some? <==> id in locksById || id in doorbellsById
      ensures id in locksById ==> r == Some(locksById[id])
      ensures id !in locksById && id in doorbellsById ==> r == Some(doorbellsById[id])
    {
      if id in locksById then Some(locksById[id])
      else if id in doorbellsById then Some(doorbellsById[id])
      else None
    }

    /** The name the backend stores for a lock or doorbell, if the id is known. */
    function GetDeviceName(id: DeviceId): (r: Option<string>)
      reads this
      ensures r.Some? <==> id in locksById || id in doorbellsById
      ensures id in locksById ==> r == Some(locksById[id].deviceName)
      ensures id !in locksById && id in doorbellsById ==> r == Some(doorbellsById[id].deviceName)
    {
      match GetDevice(id)
      case Some(device) => Some(device.deviceName)
      case None => None
    }

    /**
     * Runs one state-changing command, given the backend's single answer: a
     * result is passed through; a backend API error becomes one host error
     * whose message names the device; anything else propagates.
     */
    function CallApiOpRequiresBridge<R>(id: DeviceId, backend: ApiOutcome<R>): (r: CommandResult<R>)
      reads this
      ensures backend.ApiOk? ==> r == CommandOk(backend.value)
      ensures backend.OtherApiException? ==> r == CommandRaised(backend.name)
      ensures backend.AugustApiError? && id in locksById ==>
                r == CommandFailed(locksById[id].deviceName + ": " + backend.message)
      ensures backend.AugustApiError? && id !in locksById && id in doorbellsById ==>
                r == CommandFailed(doorbellsById[id].deviceName + ": " + backend.message)
      ensures backend.AugustApiError? && id !in locksById && id !in doorbellsById ==>
                r == CommandFailed("DeviceID: " + id + ": " + backend.message)
    {
      match backend
      case ApiOk(v) => CommandOk(v)
      case OtherApiException(name) => CommandRaised(name)
      case AugustApiError(message) =>
        var name := match GetDeviceName(id)
                    case Some(n) => n
                    case None => "DeviceID: " + id;
        CommandFailed(name + ": " + message)
    }

    /** Drops every doorbell for which no detail is stored. */
    method RemoveInoperativeDoorbells()
      modifies this
      ensures old(Valid()) ==> Valid()
      ensures State() == PruneDoorbells(old(State()))
    {
      var todo := doorbellsById.Keys;
      while todo != {}
        invariant todo <= old(doorbellsById).Keys
        invariant doorbellsById == map id | id in old(doorbellsById) && (id in todo || id in deviceDetailById) :: old(doorbellsById)[id]
        invariant locksById == old(locksById) && deviceDetailById == old(deviceDetailById)
        invariant houseIds == old(houseIds) && events == old(events)
        decreases todo
      {
        var id :| id in todo;
        if id !in deviceDetailById {
          doorbellsById := doorbellsById - {id};
        }
        todo := todo - {id};
      }
    }

    /** Drops every lock without detail, and every lock without a bridge together with its detail. */
    method RemoveInoperativeLocks()
      modifies this
      ensures old(Valid()) ==> Valid()
      ensures State() == PruneLocks(old(State()))
    {
      var todo := locksById.Keys;
      while todo != {}
        invariant todo <= old(locksById).Keys
        invariant locksById == map id | id in old(locksById) && (id in todo || LockKept(old(deviceDetailById), id)) :: old(locksById)[id]
        invariant deviceDetailById == old(deviceDetailById) - (set id | id in old(locksById) && id !in todo && Bridgeless(old(deviceDetailById), id))
        invariant doorbellsById == old(doorbellsById) && houseIds == old(houseIds) && events == old(events)
        decreases todo
      {
        var id :| id in todo;
        var lockDetail := if id in deviceDetailById then Some(deviceDetailById[id]) else None;
        if lockDetail.None? {
          locksById := locksById - {id};
        } else if lockDetail.value.bridge.None? {
          deviceDetailById := deviceDetailById - {id};
          locksById := locksById - {id};
        }
        todo := todo - {id};
      }
    }
  }

  /** `any(...)` over the identifiers: some identifier of this domain names a known lock or doorbell. */
  function AnyKnownIdentifier(data: AugustData, identifiers: seq<(string, string)>): (r: bool)
    reads data
    ensures r <==> exists k :: 0 <= k < |identifiers| && identifiers[k].0 == Domain && data.GetDevice(identifiers[k].1).Some?
  {
    if identifiers == [] then false
    else
      (identifiers[0].0 == Domain && data.GetDevice(identifiers[0].1).Some?)
      || AnyKnownIdentifier(data, identifiers[1..])
  }

  /**
   * Whether the host may remove a device entry from this integration: only
   * when none of its identifiers of this domain names a known lock or doorbell.
   */
  function RemoveConfigEntryDevice(data: AugustData, identifiers: seq<(string, string)>): (r: bool)
    reads data
    ensures r <==> forall k :: 0 <= k < |identifiers| && identifiers[k].0 == Domain ==>
                    identifiers[k].1 !in data.locksById && identifiers[k].1 !in data.doorbellsById
  {
    !AnyKnownIdentifier(data, identifiers)
  }
}
