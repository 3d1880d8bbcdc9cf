/**
 * Setting up the device data: hydration, the first sequential refresh, the
 * inoperative filter and the choice of locks for the initial status request;
 * and the mapping of setup exceptions onto the host's config-entry errors.
 */
module Setup {
  import opened Wrappers
  import opened Devices
  import opened RegistryModel
  import opened Refresh
  import opened Inoperative

  /** How the data setup ends: done (with the initial-sync targets, if any lock is left), or an escaped exception. */
  datatype SetupResult =
    | SetupDone(initialSync: Option<map<DeviceId, bool>>)
    | SetupEscaped(deviceId: DeviceId, failure: Failure)

  /** `bool(detail.bridge and detail.bridge.hyper_bridge)`. */
  function HyperBridge(d: Detail): bool
  {
    d.bridge.Some? && d.bridge.value.hyperBridge
  }

  /** The status requests of the initial sync: one per lock that has a detail, with its hyper-bridge flag. */
  function InitialSyncTargets(s: Registry): (targets: map<DeviceId, bool>)
  {
    map id | id in s.details && id in s.locks :: HyperBridge(s.details[id])
  }

  /**
   * The data setup. The push channel is not yet created while the first
   * refresh runs, so the refresh sees push as disconnected. The fan-out of
   * the initial sync is scheduled only when some lock is left.
   */
  function SetupData(s: Registry, locksIn: Option<seq<Device>>, doorbellsIn: Option<seq<Device>>,
                     outcomes: seq<FetchOutcome>): (r: (Registry, SetupResult))
    requires |outcomes| == |OrEmpty(locksIn)| + |OrEmpty(doorbellsIn)|
  {
    var h := Hydrate(s, locksIn, doorbellsIn);
    var ids := IdsOf(OrEmpty(locksIn) + OrEmpty(doorbellsIn));
    var (s1, rr) := RefreshMany(h, ids, outcomes, Steady(|ids|, false));
    if rr.Escaped? then (s1, SetupEscaped(rr.deviceId, rr.failure))
    else
      var s2 := PruneDoorbells(PruneLocks(s1));
      (s2, SetupDone(if s2.locks != map[] then Some(InitialSyncTargets(s2)) else None))
  }

  /** The initial-sync selection: every lock with a detail, flagged iff its bridge is a hyper bridge. */
  lemma InitialSyncSelection(s: Registry)
    ensures var t := InitialSyncTargets(s);
      && (forall id :: id in t <==> id in s.locks && id in s.details)
      && (forall id :: id in t ==> (t[id] <==> s.details[id].bridge.Some? && s.details[id].bridge.value.hyperBridge))
  {
  }

  /** With push disconnected, the only exception that escapes a sequential refresh is the unbound detail after a client error. */
  lemma {:induction false} DisconnectedEscapeIsUnbound(s: Registry, ids: seq<DeviceId>, outcomes: seq<FetchOutcome>)
    requires |outcomes| == |ids| && Keyed(s)
    ensures var r := RefreshMany(s, ids, outcomes, Steady(|ids|, false));
      r.1.Escaped? ==> r.1.failure == UnboundDetail && exists k :: 0 <= k < |ids| && outcomes[k] == FetchClientError
    decreases |ids|
  {
    if ids != [] {
      var pushes := Steady(|ids|, false);
      assert pushes[1..] == Steady(|ids| - 1, false);
      var (s1, o) := RefreshOne(s, ids[0], outcomes[0], pushes[0]);
      if !(o.Fail? && !Caught(o.error)) {
        DisconnectedEscapeIsUnbound(s1, ids[1..], outcomes[1..]);
        var r := RefreshMany(s1, ids[1..], outcomes[1..], pushes[1..]);
        if r.1.Escaped? {
          var k :| 0 <= k < |ids[1..]| && outcomes[1..][k] == FetchClientError;
          assert outcomes[k + 1] == FetchClientError;
        }
      }
    }
  }

  /**
   * After a data setup that is not interrupted, every lock and doorbell left
   * has a detail, every lock left has a bridge, the maps are keyed by device
   * id, and the initial sync addresses exactly the remaining locks. An
   * interrupted setup is always the unbound-detail failure of a client error.
   */
  lemma SetupInvariant(s: Registry, locksIn: Option<seq<Device>>, doorbellsIn: Option<seq<Device>>,
                       outcomes: seq<FetchOutcome>)
    requires |outcomes| == |OrEmpty(locksIn)| + |OrEmpty(doorbellsIn)|
    ensures var (r, res) := SetupData(s, locksIn, doorbellsIn, outcomes);
      && (res.SetupDone? ==>
           && (forall id :: id in r.locks ==> id in r.details && r.details[id].bridge.Some?)
           && (forall id :: id in r.doorbells ==> id in r.details)
           && KeyedById(r.locks) && KeyedById(r.doorbells)
           && (res.initialSync.Some? <==> r.locks != map[])
           && (res.initialSync.Some? ==> res.initialSync.value.Keys == r.locks.Keys))
      && (res.SetupEscaped? ==> res.failure == UnboundDetail)
  {
    var h := Hydrate(s, locksIn, doorbellsIn);
    var ids := IdsOf(OrEmpty(locksIn) + OrEmpty(doorbellsIn));
    var (s1, rr) := RefreshMany(h, ids, outcomes, Steady(|ids|, false));
    DisconnectedEscapeIsUnbound(h, ids, outcomes);
    if !rr.Escaped? {
      NoDanglingAfterFilters(s1);
      FiltersKeepKeys(s1);
      var s2 := PruneDoorbells(PruneLocks(s1));
      InitialSyncSelection(s2);
    }
  }

  /** The exceptions `async_setup_entry` can see from authentication and the data setup. */
  datatype SetupException =
    | RequireValidation
    | InvalidAuth
    | TimeoutException
    | AugustApiAiohttpError
    | ClientResponseException
    | CannotConnectException
    | UnexpectedException(name: string)

  /** What the host is told: loaded, re-authenticate, retry later (with an optional message), or an unhandled exception. */
  datatype EntryOutcome = Loaded | AuthFailed | NotReady(message: Option<string>) | Raised(exception: SetupException)

  const TimedOutMessage: string := "Timed out connecting to august api"

  /** The exception a refresh failure becomes once it leaves the data setup. */
  function SetupExceptionOf(f: Failure): SetupException
  {
    match f
    case TimedOut => TimeoutException
    case CannotConnectError => CannotConnectException
    case UnboundDetail => UnexpectedException("UnboundLocalError")
    case MissingPriorDetail => UnexpectedException("KeyError")
    case UnsavedAttrs => UnexpectedException("UnboundLocalError")
    case NotADoorbell => UnexpectedException("KeyError")
  }

  /**
   * The error mapping of `async_setup_entry`: validation and invalid-auth
   * errors ask for re-authentication; a timeout is "not ready" with its own
   * message; backend, response and connection errors are "not ready" without
   * one; anything else propagates unchanged.
   */
  function SetupEntry(o: Outcome<SetupException>): (r: EntryOutcome)
    ensures r == Loaded <==> o.Pass?
    ensures r == AuthFailed <==> o == Fail(RequireValidation) || o == Fail(InvalidAuth)
    ensures r.NotReady? <==> o.Fail? && o.error in {TimeoutException, AugustApiAiohttpError, ClientResponseException, CannotConnectException}
    ensures r == NotReady(Some(TimedOutMessage)) <==> o == Fail(TimeoutException)
    ensures r.NotReady? && o != Fail(TimeoutException) ==> r.message == None
    ensures r.Raised? <==> o.Fail? && o.error.UnexpectedException?
    ensures r.Raised? ==> r.exception == o.error
  {
    match o
    case Pass => Loaded
    case Fail(e) =>
      match e
      case RequireValidation => AuthFailed
      case InvalidAuth => AuthFailed
      case TimeoutException => NotReady(Some(TimedOutMessage))
      case AugustApiAiohttpError => NotReady(None)
      case ClientResponseException => NotReady(None)
      case CannotConnectException => NotReady(None)
      case UnexpectedException(_) => Raised(e)
  }

  /**
   * A data setup interrupted by a client error on a detail fetch reaches the
   * host as an unhandled UnboundLocalError, not as a retryable "not ready".
   */
  lemma InterruptedSetupIsUnhandled(s: Registry, locksIn: Option<seq<Device>>, doorbellsIn: Option<seq<Device>>,
                                    outcomes: seq<FetchOutcome>)
    requires |outcomes| == |OrEmpty(locksIn)| + |OrEmpty(doorbellsIn)|
    ensures var res := SetupData(s, locksIn, doorbellsIn, outcomes).1;
      res.SetupEscaped? ==> SetupEntry(Fail(SetupExceptionOf(res.failure))) == Raised(UnexpectedException("UnboundLocalError"))
  {
    SetupInvariant(s, locksIn, doorbellsIn, outcomes);
  }
}
