# August device-state bookkeeping, modelled in Dafny

This project models how the August integration for Home Assistant keeps its view of locks and
doorbells. The integration object `AugustData` holds three maps: locks by id, doorbells by id, and
detail snapshots by id. The snapshot map also holds keypads. With these maps it does five things.

- **Hydration.** It stores the two bulk listings and derives the set of house ids.
- **Sequential refresh.** It refreshes device details one id after another. A timeout or a
  connection error on one device is logged and skipped.
- **Live-attribute overlay.** While the push channel is connected, it saves the four live
  attributes of a lock's detail before the fetch and restores them afterwards. These are
  `door_state`, `door_state_datetime`, `lock_status` and `lock_status_datetime`.
- **Inoperative filter.** It drops locks without a detail or without a bridge, and doorbells
  without a detail.
- **Command wrapper.** It runs state-changing commands and turns a backend API error into one
  error whose message names the device.

The model has three layers.

- `setup.dfy`, `refresh.dfy` and `inoperative.dfy` hold pure functions over a `Registry` value:
  the three maps, the house ids and an event log. The lemmas are stated about these functions.
- `august_data.dfy` holds the class `AugustData`. Its fields are those maps. Its methods update
  them in place with the source's loops, and each method is proved to compute exactly the
  matching function.
- `live_attrs.dfy` is the overlay, and `devices.dfy` and `registry.dfy` hold the data model.

Effects on the outside world are written to the event log `events`:

- the "device updated" signal (`DeviceUpdated`);
- the Bluetooth discovery flow for a lock detail that has an offline key (`BleDiscovery`).

Backend answers are inputs. Every listed id gets one `FetchOutcome`, even an id that is never
fetched. It is `Fetched(detail)`, `FetchTimeout`, `FetchClientError` or `FetchCannotConnect`.
Each command gets one `ApiOutcome`. Every listed id also gets one `PushReads`, which says whether
the push channel is connected at the two checks a lock refresh makes: one before the fetch is
awaited (:296) and one after it returns (:301). The connection can change while the fetch is
awaited. If push connects during the fetch, nothing was saved, and the restore raises
`UnboundLocalError` (:302). That happens after the fetched detail is stored and before the keypad
store and the update signal. The model's failure for this is `UnsavedAttrs`, and it escapes the
loop (`Refresh.PushConnectedDuringFetch`). If push drops during the fetch, the detail is stored as
fetched.

In three places the code does less than its own surroundings suggest was meant. The model
follows the code.

- **Client errors escape the refresh loop.** The loop's `except (ClientResponseError,
  CannotConnect)` at :280 shows that a response error on one device was meant to be logged and
  skipped. But a client error is caught first, inside the detail update
  (`homeassistant/components/august/__init__.py:333`). That includes `ClientResponseError`,
  which is a subclass of aiohttp's `ClientError`. The error is logged, and then the unbound
  `detail` is read at :343. The resulting `UnboundLocalError` is not one of the exceptions the
  loop catches (:275, :280), so it ends the loop. The model's failure `UnboundDetail` does the
  same. During setup it reaches the host as an unhandled exception, not as "not ready"
  (`Setup.InterruptedSetupIsUnhandled`).
- **A missing prior detail fails.** After the fetch, the code tests `device_id in
  self._device_detail_by_id` (:305), as if a lock might have no detail. Before the fetch, though,
  it indexes the detail map directly (:297). So with push connected, a lock that has no detail
  yet raises `KeyError`. The model's failure for this is
  `MissingPriorDetail` (`Refresh.MissingPriorDetailEscapes`).
- **The saved set is fixed.** `_save_live_attrs` is typed to take a doorbell detail as well as
  a lock detail (:469), but it reads all four attributes of `API_CACHED_ATTRS` (:44-49)
  unconditionally, with no check that the detail has them. The model does the same.

## Model

| member | source | states |
|---|---|---|
| LiveAttrs.SaveLiveAttrs | homeassistant/components/august/__init__.py:469-476 | the saved map has exactly the four cached attribute names as keys, each mapped to the detail's value of that attribute |
| LiveAttrs.RestoreLiveAttrs | homeassistant/components/august/__init__.py:479-484 | after the setattr loop, every saved attribute has its saved value, every attribute not in the map keeps its value, and all non-live fields are unchanged |
| LiveAttrs.OverlayKeepsLiveAttrs | homeassistant/components/august/__init__.py:44-49 | restoring a save of the prior detail onto a fetched detail gives the fetched detail with the prior door_state, door_state_datetime, lock_status and lock_status_datetime, and every other field as fetched |
| LiveAttrs.SaveRestoreIdentity | homeassistant/components/august/__init__.py:469-484 | restoring a detail's own save onto it changes nothing |
| RegistryModel.ById | homeassistant/components/august/__init__.py:161-162 | the map built from a listing is keyed by exactly the listed device ids, and every entry is a listed device stored under its own id |
| RegistryModel.IdsOf | homeassistant/components/august/__init__.py:165-167 | the refreshed id list has the listed devices' ids in listing order |
| RegistryModel.ByIdLastWins | homeassistant/components/august/__init__.py:161-162 | when an id is listed twice, the entry under it is the last device listed with that id |
| RegistryModel.ByIdDistinct | homeassistant/components/august/__init__.py:161-162 | with distinct ids, every listed device is stored under its own id |
| RegistryModel.HydrationShape | homeassistant/components/august/__init__.py:154-163 | the lock and doorbell maps are keyed exactly by the listed ids; the house-id set is the union of the house ids of both listings; a missing listing is the same as an empty one; details and events are untouched |
| Refresh.UpdateDetail | homeassistant/components/august/__init__.py:320-346 | a failed fetch leaves the registry unchanged; no fetch changes the device maps or house ids |
| Refresh.RefreshOne | homeassistant/components/august/__init__.py:294-318 | a failing refresh leaves the registry unchanged, except when push connects during a lock's fetch (the only case of the unsaved-attributes failure); a refresh never changes the device maps or house ids and never removes a detail |
| Refresh.RefreshMany | homeassistant/components/august/__init__.py:261-285 | the device maps and house ids are kept and no detail is removed; when the loop is interrupted, it is by an id from the list with an exception the loop does not catch |
| Refresh.RefreshCamera | homeassistant/components/august/__init__.py:287-292 | an id that is not a doorbell raises KeyError and changes nothing; a failed fetch changes nothing |
| Refresh.CameraRefreshStores | homeassistant/components/august/__init__.py:287-292 | a successful camera refresh stores the fetched detail under the doorbell's id and emits its discovery flows, and nothing else: no update signal, no keypad store |
| Refresh.CaughtFailureChangesNothing | homeassistant/components/august/__init__.py:272-285 | a timeout or connection error on a fetched id leaves the registry unchanged and is a caught failure |
| Refresh.RefreshIsolation | homeassistant/components/august/__init__.py:272-285 | a sequential refresh where one fetched id times out or cannot connect ends exactly like the same refresh with that id removed, so that id changes nothing and the later ids are still refreshed |
| Refresh.RefreshManyAppend | homeassistant/components/august/__init__.py:272-274 | ids are visited in order: refreshing a+b is refreshing a, then, unless an exception escaped, b from the resulting state |
| Refresh.ClientErrorEscapes | homeassistant/components/august/__init__.py:331-346 | a client error on a fetched id escapes the loop as the unbound-detail failure, with the registry unchanged and no later id refreshed |
| Refresh.MissingPriorDetailEscapes | homeassistant/components/august/__init__.py:295-297 | with push connected at the first check, a lock without a prior detail escapes the loop with KeyError before any fetch |
| Refresh.PushConnectedDuringFetch | homeassistant/components/august/__init__.py:294-302 | when push connects while a lock's fetch is awaited, the fetched detail is stored and its discovery flows emitted, then UnboundLocalError escapes the loop with no keypad store and no update signal |
| Refresh.UnknownIdOnlySignals | homeassistant/components/august/__init__.py:294-318 | an id in neither device map triggers no fetch, whatever the outcome, and only signals an update |
| Refresh.LockRefreshEffects | homeassistant/components/august/__init__.py:294-309 | a successful lock refresh stores the fetched detail; with push connected at both checks it keeps the prior detail's four live fields, and with push dropped during the fetch it keeps none; the keypad is stored under its own id; the discovery flow of the fetched detail, then the update signal, are emitted; no other detail changes |
| Refresh.DoorbellRefreshEffects | homeassistant/components/august/__init__.py:310-318 | a successful doorbell refresh stores the fetched detail unchanged, push or not, emits its discovery flows and the update signal, and changes no other detail |
| Devices.DiscoveryEvents | homeassistant/components/august/__init__.py:341-344 | storing a fetched detail triggers exactly one discovery flow, carrying that detail's name, address, serial, key and slot, iff it is a lock detail with a non-empty offline key, and none otherwise |
| Inoperative.LockFilterCases | homeassistant/components/august/__init__.py:438-466 | a lock without a detail leaves the lock map only; a lock whose detail has no bridge leaves both the lock map and the detail map; a lock with a bridge stays with its detail; doorbells and other details are untouched |
| Inoperative.DoorbellFilterIff | homeassistant/components/august/__init__.py:424-436 | a doorbell stays iff a detail is stored for it; the detail map and the lock map are never touched |
| Inoperative.FiltersKeepKeys | homeassistant/components/august/__init__.py:424-466 | the filters keep every remaining device under its own id |
| Inoperative.NoDanglingAfterFilters | homeassistant/components/august/__init__.py:169-174 | after the lock filter and then the doorbell filter, every remaining lock and doorbell has a detail, and every remaining lock has a bridge |
| Setup.InitialSyncSelection | homeassistant/components/august/__init__.py:204-210 | the initial sync targets exactly the locks that have a detail, each flagged iff its bridge is present and is a hyper bridge |
| Setup.DisconnectedEscapeIsUnbound | homeassistant/components/august/__init__.py:294-346 | with push disconnected, the only exception that escapes a sequential refresh is the unbound detail, and only when some outcome was a client error |
| Setup.SetupInvariant | homeassistant/components/august/__init__.py:149-197 | after an uninterrupted data setup, every remaining lock and doorbell has a detail, every lock has a bridge, the maps are keyed by id, and the initial sync is scheduled iff some lock remains and targets exactly the remaining locks; an interrupted setup is always the unbound-detail failure |
| Setup.SetupEntry | homeassistant/components/august/__init__.py:55-68 | validation and invalid-auth errors ask for re-authentication; a timeout is "not ready" with its timed-out message; backend, response and connection errors are "not ready" without a message; any other exception propagates unchanged; success loads |
| Setup.InterruptedSetupIsUnhandled | homeassistant/components/august/__init__.py:60-68 | a data setup interrupted by a client error on a detail fetch reaches the host as an unhandled UnboundLocalError, not as a retryable "not ready" |
| AugustRuntime.AugustData.constructor | homeassistant/components/august/__init__.py:125-142 | a new object has empty maps, no house ids and no events |
| AugustRuntime.AugustData.AsyncSetup | homeassistant/components/august/__init__.py:149-197 | the maps after setup, and its result, are those of the data-setup specification: hydration, the refresh of every listed id with push disconnected, the lock and doorbell filters, and the initial-sync targets |
| AugustRuntime.AugustData.RefreshDeviceDetailByIds | homeassistant/components/august/__init__.py:261-285 | the sequential loop leaves the registry, and returns the result, of the sequential-refresh specification |
| AugustRuntime.AugustData.RefreshCameraById | homeassistant/components/august/__init__.py:287-292 | the camera refresh leaves the registry of the camera-refresh specification |
| AugustRuntime.AugustData.RefreshDeviceDetailById | homeassistant/components/august/__init__.py:294-318 | the in-place save, fetch, restore, keypad store and signal leave the registry of the one-device specification |
| AugustRuntime.AugustData.UpdateDeviceDetail | homeassistant/components/august/__init__.py:320-346 | the fetch-and-store leaves the registry of the detail-update specification |
| AugustRuntime.AugustData.GetDevice | homeassistant/components/august/__init__.py:348-350 | a device is found iff the id is a lock or a doorbell, and the lock is returned when the id is in both maps |
| AugustRuntime.AugustData.GetDeviceName | homeassistant/components/august/__init__.py:352-356 | the name is the lock's name, else the doorbell's name, and is absent only for an unknown id |
| AugustRuntime.AugustData.CallApiOpRequiresBridge | homeassistant/components/august/__init__.py:406-422 | a backend result is returned unchanged; a backend API error becomes one error "<name>: <message>", where the name is the lock's name, else the doorbell's name, else "DeviceID: <id>"; other exceptions propagate; the backend is called once |
| AugustRuntime.AugustData.RemoveInoperativeDoorbells | homeassistant/components/august/__init__.py:424-436 | the deletion loop leaves the registry of the doorbell filter |
| AugustRuntime.AugustData.RemoveInoperativeLocks | homeassistant/components/august/__init__.py:438-466 | the deletion loop leaves the registry of the lock filter |
| AugustRuntime.AnyKnownIdentifier | homeassistant/components/august/__init__.py:491-496 | true iff some identifier has this integration's domain and names a known lock or doorbell |
| AugustRuntime.RemoveConfigEntryDevice | homeassistant/components/august/__init__.py:487-496 | removal is allowed iff no identifier of this integration's domain names a known lock or doorbell |

## Left out

- The push channel is reduced to the two connection reads of each lock refresh (`PushReads`).
  Left out are PubNub creation, device
  registration and subscription, the activity stream, the message handler
  `async_pubnub_message` and `async_stop`. These are foreign libraries and callbacks.
- The background initial sync (`_async_initial_sync`) is left out except for its target
  selection. It sends concurrent status requests through `asyncio.gather` and logs unexpected
  exceptions. The targets are a map from id to hyper-bridge flag, so the order in which the
  detail map yields them is not modelled.
- Setup.InitialSyncTargets: the targets are computed from the maps as they are at the end of
  setup. The source computes them when the background task runs, and by then a push message
  may have changed a detail, so the model does not capture an update that lands in between.
- The five command entry points (`async_lock`, `async_unlock`, `async_lock_async`,
  `async_unlock_async`, `async_status_async`) are left out as separate members. Each passes one
  backend operation to the wrapper. The wrapper is modelled, with the backend's answer as an
  input.
- The periodic refresh `_async_refresh` is left out. It refreshes the ids subscribed through
  the subscriber mixin, and `subscriber.py` is not part of this model. Any id list passed to
  `RefreshDeviceDetailByIds` covers it.
- Trivial accessors are left out: `get_device_detail` (a plain map lookup), the `doorbells` and
  `locks` views, and `brand`.
- Authentication, the token refresh, the user lookup and the removal of a stored password are
  left out. They belong to the gateway and the config entry, whose code is not shown. So are
  platform forwarding, the discovery-flow API and the device registry. Their failures enter
  `Setup.SetupEntry` as exceptions.
- Logging calls are left out. They do not change behaviour.
- Detail objects are values. Python mutates the stored object in place when it restores the
  live attributes. The model stores the restored copy, so aliasing of the same object is not
  modelled. An example is the detail objects registered with the push client.
- Detail classes are one record with a kind tag. The `AttributeError` that a lookup of a
  missing attribute on the wrong detail class would raise is not modelled. Timestamps and
  statuses are opaque `Value`s, and a falsy offline key is written as the empty string. A stored
  detail object is always truthy, so the doorbell filter's truthiness test is a presence test.
- `const.py` is not part of this model. The domain is taken to be `"august"`.
- Exception classes that belong to two families (for example a timeout that is also an aiohttp
  client error) are not modelled. Each fetch outcome belongs to exactly one family.
