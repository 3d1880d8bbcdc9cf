/**
 * The entities the August integration keeps track of: the devices returned by
 * the bulk listing calls, the detail snapshots fetched per device, the events
 * the bookkeeping emits, and the outcome of one detail fetch.
 */
module Devices {
  import opened Wrappers

  type DeviceId = string
  type HouseId = string

  /** A lock or doorbell as returned by the operable-lock and doorbell listings. */
  datatype Device = Device(deviceId: DeviceId, deviceName: string, houseId: HouseId)

  /** An attribute value of a detail object: absent, a status text or a timestamp. */
  datatype Value = NoValue | Text(text: string) | Stamp(time: int)

  /** The bridge (August Connect) a lock talks through. */
  datatype Bridge = Bridge(hyperBridge: bool)

  /** Which detail class the backend returned. */
  datatype Kind = LockKind | DoorbellKind | KeypadKind

  /**
   * A detail snapshot, replaced wholesale on every successful refresh.
   * The four live fields are the ones push messages update.
   * `keypad` holds the keypad detail attached to a lock, stored in the detail
   * map under its own id after a refresh. `offlineKey == ""` stands for a
   * missing (falsy) offline key.
   */
  datatype Detail = Detail(
    kind: Kind,
    deviceId: DeviceId,
    deviceName: string,
    doorState: Value,
    doorStateDatetime: Value,
    lockStatus: Value,
    lockStatusDatetime: Value,
    bridge: Option<Bridge>,
    keypad: Option<Detail>,
    offlineKey: string,
    offlineSlot: int,
    macAddress: string,
    serialNumber: string,
    batteryLevel: int)

  /** What the bookkeeping emits towards the rest of the host. */
  datatype Event =
    | DeviceUpdated(deviceId: DeviceId)
      // a discovery flow for the companion Bluetooth integration
    | BleDiscovery(name: string, address: string, serial: string, key: string, slot: int)

  /** The discovery flow created for a lock detail that carries an offline key. */
  function DiscoveryFor(d: Detail): Event
  {
    BleDiscovery(d.deviceName, d.macAddress, d.serialNumber, d.offlineKey, d.offlineSlot)
  }

  /** The discovery flows that storing fetched detail `d` triggers: one for a lock with an offline key. */
  function DiscoveryEvents(d: Detail): (r: seq<Event>)
    ensures |r| <= 1
    ensures |r| == 1 <==> d.kind == LockKind && d.offlineKey != ""
    ensures |r| == 1 ==> r[0] == DiscoveryFor(d)
  {
    if d.kind == LockKind && d.offlineKey != "" then [DiscoveryFor(d)] else []
  }

  /** The result of one detail request against the backend. */
  datatype FetchOutcome =
    | Fetched(detail: Detail)
    | FetchTimeout        // TimeoutError
    | FetchClientError    // an aiohttp ClientError (ClientResponseError among them)
    | FetchCannotConnect  // the integration's CannotConnect

  /** An exception leaving the refresh of one device. */
  datatype Failure =
    | TimedOut            // TimeoutError from the fetch
    | CannotConnectError  // CannotConnect from the fetch
    | UnboundDetail       // UnboundLocalError: the client error was swallowed and `detail` never bound
    | MissingPriorDetail  // KeyError: no detail to save the live attributes from
    | UnsavedAttrs        // UnboundLocalError: push connected during the fetch, so nothing was saved to restore
    | NotADoorbell        // KeyError: a camera refresh for an id that is not a doorbell

  /** The failures the sequential refresh catches and logs; all others escape it. */
  predicate Caught(f: Failure)
  {
    f == TimedOut || f == CannotConnectError
  }
}
