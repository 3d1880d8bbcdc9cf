/**
 * The per-device detail refresh and the sequential refresh of a list of ids,
 * as functions of the registry, one fetch outcome per listed id and, per
 * listed id, the two reads of the push connection a lock refresh makes. The
 * class methods of `AugustData` are proved to compute exactly these.
 */
module Refresh {
  import opened Wrappers
  import opened Devices
  import opened LiveAttrs
  import opened RegistryModel

  /** How a sequential refresh ends: it runs to the end, or an uncaught exception escapes it. */
  datatype RefreshResult = Completed | Escaped(deviceId: DeviceId, failure: Failure)

  /**
   * Whether the push channel is connected when a lock refresh checks it: once
   * before the fetch is awaited and once after it returns. The connection can
   * change while the fetch is awaited.
   */
  datatype PushReads = PushReads(beforeFetch: bool, afterFetch: bool)

  /** The same connection state read `n` times over, at every check of a sequential refresh. */
  function Steady(n: nat, connected: bool): (pushes: seq<PushReads>)
    ensures |pushes| == n
    ensures forall k :: 0 <= k < n ==> pushes[k] == PushReads(connected, connected)
  {
    seq(n, _ => PushReads(connected, connected))
  }

  /** The registry the class methods operate on: every device stored under its own id. */
  ghost predicate Keyed(s: Registry)
  {
    KeyedById(s.locks) && KeyedById(s.doorbells)
  }

  /**
   * Fetches one device's detail. A fetched lock detail with an offline key
   * first triggers a discovery flow; the detail then replaces the stored one.
   * A timeout or connection error propagates. A client error is logged and
   * swallowed, after which the unbound result raises UnboundLocalError.
   */
  function UpdateDetail(s: Registry, device: Device, outcome: FetchOutcome): (r: (Registry, Outcome<Failure>))
    ensures r.1.Fail? ==> r.0 == s
    ensures r.0.locks == s.locks && r.0.doorbells == s.doorbells && r.0.houseIds == s.houseIds
  {
    match outcome
    case Fetched(d) =>
      (s.(events := s.events + DiscoveryEvents(d), details := s.details[device.deviceId := d]), Pass)
    case FetchTimeout => (s, Fail(TimedOut))
    case FetchCannotConnect => (s, Fail(CannotConnectError))
    case FetchClientError => (s, Fail(UnboundDetail))
  }

  /** Stores the keypad attached to the detail under `id`, if any, under the keypad's own id. */
  function StoreKeypad(s: Registry, id: DeviceId): Registry
  {
    if id in s.details && s.details[id].keypad.Some? then
      var k := s.details[id].keypad.value;
      s.(details := s.details[k.deviceId := k])
    else s
  }

  /** Signals that the device's entities should update. */
  function Signal(s: Registry, id: DeviceId): Registry
  {
    s.(events := s.events + [DeviceUpdated(id)])
  }

  /**
   * Refreshes one id. For a lock, the live attributes are saved if push is
   * connected before the fetch (saving needs a prior detail), and restored if
   * push is connected after it; when only the second check sees push, there
   * is nothing saved and the restore raises UnboundLocalError after the fetched
   * detail is stored. The lock's keypad is then stored under its own id. A
   * doorbell is fetched plainly. An id in neither map is not fetched. Every id
   * that gets through is signalled as updated; a failure other than the
   * missing save leaves the registry as it was.
   */
  function RefreshOne(s: Registry, id: DeviceId, outcome: FetchOutcome, p: PushReads): (r: (Registry, Outcome<Failure>))
    requires Keyed(s)
    ensures r.1.Fail? && r.1.error != UnsavedAttrs ==> r.0 == s
    ensures r.1 == Fail(UnsavedAttrs) ==> id in s.locks && !p.beforeFetch && p.afterFetch
    ensures r.0.locks == s.locks && r.0.doorbells == s.doorbells && r.0.houseIds == s.houseIds
    ensures s.details.Keys <= r.0.details.Keys
  {
    if id in s.locks then
      if p.beforeFetch && id !in s.details then (s, Fail(MissingPriorDetail))
      else
        var (s1, o) := UpdateDetail(s, s.locks[id], outcome);
        if o.Fail? then (s1, o)
        else if p.afterFetch && !p.beforeFetch then (s1, Fail(UnsavedAttrs))
        else
          var s2 := if p.afterFetch then s1.(details := s1.details[id := Restored(s1.details[id], SaveLiveAttrs(s.details[id]))])
                    else s1;
          (Signal(StoreKeypad(s2, id), id), Pass)
    else if id in s.doorbells then
      var (s1, o) := UpdateDetail(s, s.doorbells[id], outcome);
      if o.Fail? then (s1, o) else (Signal(s1, id), Pass)
    else
      (Signal(s, id), Pass)
  }

  /**
   * Refreshes the ids one after another, in the given order. A timeout or
   * connection error on one id is caught and the loop moves on; any other
   * failure escapes and ends the loop.
   */
  function RefreshMany(s: Registry, ids: seq<DeviceId>, outcomes: seq<FetchOutcome>, pushes: seq<PushReads>): (r: (Registry, RefreshResult))
    requires |outcomes| == |ids| && |pushes| == |ids|
    requires Keyed(s)
    ensures r.0.locks == s.locks && r.0.doorbells == s.doorbells && r.0.houseIds == s.houseIds
    ensures s.details.Keys <= r.0.details.Keys
    ensures r.1.Escaped? ==> r.1.deviceId in ids && !Caught(r.1.failure)
    decreases |ids|
  {
    if ids == [] then (s, Completed)
    else
      var (s1, o) := RefreshOne(s, ids[0], outcomes[0], pushes[0]);
      if o.Fail? && !Caught(o.error) then (s1, Escaped(ids[0], o.error))
      else RefreshMany(s1, ids[1..], outcomes[1..], pushes[1..])
  }

  /** Re-fetches a doorbell's detail; an id that is not a doorbell raises KeyError. */
  function RefreshCamera(s: Registry, id: DeviceId, outcome: FetchOutcome): (r: (Registry, Outcome<Failure>))
    ensures id !in s.doorbells ==> r == (s, Fail(NotADoorbell))
    ensures r.1.Fail? ==> r.0 == s
    ensures r.0.locks == s.locks && r.0.doorbells == s.doorbells
  {
    if id !in s.doorbells then (s, Fail(NotADoorbell))
    else UpdateDetail(s, s.doorbells[id], outcome)
  }

  /**
   * A successful camera refresh stores the fetched detail under the doorbell's
   * id and emits its discovery flows; unlike the per-device refresh it sends
   * no update signal and stores no keypad.
   */
  lemma CameraRefreshStores(s: Registry, id: DeviceId, d: Detail)
    requires KeyedById(s.doorbells) && id in s.doorbells
    ensures RefreshCamera(s, id, Fetched(d)) == (s.(details := s.details[id := d], events := s.events + DiscoveryEvents(d)), Pass)
  {
  }

  /** `xs` without its element at index `k`. */
  function Without<T>(xs: seq<T>, k: nat): (r: seq<T>)
    requires k < |xs|
    ensures |r| == |xs| - 1
  {
    xs[..k] + xs[k + 1..]
  }

  /** Whether the refresh of `id` reaches the fetch (and so can be told apart by its outcome). */
  ghost predicate Fetches(s: Registry, id: DeviceId, p: PushReads)
  {
    (id in s.locks || id in s.doorbells) && (p.beforeFetch && id in s.locks ==> id in s.details)
  }

  /** A timeout or connection error on a fetched id changes nothing and is caught. */
  lemma CaughtFailureChangesNothing(s: Registry, id: DeviceId, outcome: FetchOutcome, p: PushReads)
    requires Keyed(s) && Fetches(s, id, p)
    requires outcome == FetchTimeout || outcome == FetchCannotConnect
    ensures var r := RefreshOne(s, id, outcome, p);
      r.0 == s && r.1.Fail? && Caught(r.1.error)
  {
  }

  /**
   * Partial-failure isolation: a refresh in which the fetch for `ids[k]`
   * times out or cannot connect ends exactly as the same refresh with that
   * id left out of the list, so it neither changes anything nor stops the
   * ids after it.
   */
  lemma {:induction false} RefreshIsolation(s: Registry, ids: seq<DeviceId>, outcomes: seq<FetchOutcome>,
                                            pushes: seq<PushReads>, k: nat)
    requires |outcomes| == |ids| && |pushes| == |ids| && Keyed(s)
    requires k < |ids|
    requires outcomes[k] == FetchTimeout || outcomes[k] == FetchCannotConnect
    requires Fetches(s, ids[k], pushes[k])
    ensures RefreshMany(s, ids, outcomes, pushes) == RefreshMany(s, Without(ids, k), Without(outcomes, k), Without(pushes, k))
    decreases k
  {
    if k == 0 {
      CaughtFailureChangesNothing(s, ids[0], outcomes[0], pushes[0]);
      assert Without(ids, 0) == ids[1..];
      assert Without(outcomes, 0) == outcomes[1..];
      assert Without(pushes, 0) == pushes[1..];
    } else {
      var (s1, o) := RefreshOne(s, ids[0], outcomes[0], pushes[0]);
      var ids', outcomes', pushes' := Without(ids, k), Without(outcomes, k), Without(pushes, k);
      assert ids'[0] == ids[0] && outcomes'[0] == outcomes[0] && pushes'[0] == pushes[0];
      assert ids'[1..] == Without(ids[1..], k - 1);
      assert outcomes'[1..] == Without(outcomes[1..], k - 1);
      assert pushes'[1..] == Without(pushes[1..], k - 1);
      if !(o.Fail? && !Caught(o.error)) {
        assert ids[1..][k - 1] == ids[k] && pushes[1..][k - 1] == pushes[k];
        RefreshIsolation(s1, ids[1..], outcomes[1..], pushes[1..], k - 1);
      }
    }
  }

  /**
   * Sequential order: refreshing `a + b` is refreshing `a`, then, unless an
   * exception escaped, refreshing `b` from where `a` left off.
   */
  lemma {:induction false} RefreshManyAppend(s: Registry, a: seq<DeviceId>, oa: seq<FetchOutcome>, pa: seq<PushReads>,
                                             b: seq<DeviceId>, ob: seq<FetchOutcome>, pb: seq<PushReads>)
    requires |oa| == |a| && |pa| == |a| && |ob| == |b| && |pb| == |b| && Keyed(s)
    ensures var (s1, r1) := RefreshMany(s, a, oa, pa);
      RefreshMany(s, a + b, oa + ob, pa + pb) == if r1.Escaped? then (s1, r1) else RefreshMany(s1, b, ob, pb)
    decreases |a|
  {
    if a == [] {
      assert a + b == b && oa + ob == ob && pa + pb == pb;
    } else {
      assert (a + b)[0] == a[0] && (oa + ob)[0] == oa[0] && (pa + pb)[0] == pa[0];
      assert (a + b)[1..] == a[1..] + b && (oa + ob)[1..] == oa[1..] + ob && (pa + pb)[1..] == pa[1..] + pb;
      var (s1, o) := RefreshOne(s, a[0], oa[0], pa[0]);
      if !(o.Fail? && !Caught(o.error)) {
        RefreshManyAppend(s1, a[1..], oa[1..], pa[1..], b, ob, pb);
      }
    }
  }

  /**
   * The client-error path as written: the error is swallowed, the unbound
   * detail then raises, and that exception escapes the sequential refresh,
   * so none of the later ids is refreshed.
   */
  lemma ClientErrorEscapes(s: Registry, id: DeviceId, p: PushReads, rest: seq<DeviceId>, outcomes: seq<FetchOutcome>,
                           pushes: seq<PushReads>)
    requires Keyed(s) && Fetches(s, id, p) && |outcomes| == |rest| && |pushes| == |rest|
    ensures RefreshMany(s, [id] + rest, [FetchClientError] + outcomes, [p] + pushes) == (s, Escaped(id, UnboundDetail))
  {
  }

  /** With push connected before the fetch, a lock that has no detail yet fails on saving its live attributes (KeyError). */
  lemma MissingPriorDetailEscapes(s: Registry, id: DeviceId, afterFetch: bool, rest: seq<DeviceId>, outcome: FetchOutcome,
                                  outcomes: seq<FetchOutcome>, pushes: seq<PushReads>)
    requires Keyed(s) && |outcomes| == |rest| && |pushes| == |rest|
    requires id in s.locks && id !in s.details
    ensures RefreshMany(s, [id] + rest, [outcome] + outcomes, [PushReads(true, afterFetch)] + pushes) == (s, Escaped(id, MissingPriorDetail))
  {
  }

  /** An id that is neither a lock nor a doorbell is not fetched, but is still signalled. */
  lemma UnknownIdOnlySignals(s: Registry, id: DeviceId, outcome: FetchOutcome, p: PushReads)
    requires Keyed(s) && id !in s.locks && id !in s.doorbells
    ensures RefreshOne(s, id, outcome, p) == (s.(events := s.events + [DeviceUpdated(id)]), Pass)
  {
  }

  /**
   * A successful lock refresh: the stored detail is the fetched one, with the
   * prior detail's four live attributes when push is connected at both checks
   * (a connection lost during the fetch stores the detail as fetched); the
   * keypad is stored under its own id; exactly the discovery flows of the
   * fetched detail and then the update signal are emitted; no other detail
   * entry changes.
   */
  lemma LockRefreshEffects(s: Registry, id: DeviceId, d: Detail, p: PushReads)
    requires Keyed(s) && id in s.locks
    requires p.beforeFetch ==> id in s.details
    requires p.afterFetch ==> p.beforeFetch
    ensures var r := RefreshOne(s, id, Fetched(d), p);
      var stored := if p.afterFetch then d.(doorState := s.details[id].doorState,
                                    doorStateDatetime := s.details[id].doorStateDatetime,
                                    lockStatus := s.details[id].lockStatus,
                                    lockStatusDatetime := s.details[id].lockStatusDatetime)
                    else d;
      && r.1 == Pass
      && r.0.events == s.events + DiscoveryEvents(d) + [DeviceUpdated(id)]
      && id in r.0.details
      && (d.keypad.Some? ==> d.keypad.value.deviceId in r.0.details && r.0.details[d.keypad.value.deviceId] == d.keypad.value)
      && (d.keypad.None? || d.keypad.value.deviceId != id ==> r.0.details[id] == stored)
      && (forall j :: j != id && (d.keypad.None? || j != d.keypad.value.deviceId) ==>
            (j in r.0.details <==> j in s.details) && (j in s.details ==> r.0.details[j] == s.details[j]))
  {
  }

  /**
   * A successful doorbell refresh stores the fetched detail unchanged (push or
   * not), emits its discovery flows and the update signal, and changes no
   * other detail entry.
   */
  lemma DoorbellRefreshEffects(s: Registry, id: DeviceId, d: Detail, p: PushReads)
    requires Keyed(s) && id !in s.locks && id in s.doorbells
    ensures var r := RefreshOne(s, id, Fetched(d), p);
      && r.1 == Pass
      && r.0.details == s.details[id := d]
      && r.0.events == s.events + DiscoveryEvents(d) + [DeviceUpdated(id)]
  {
  }

  /**
   * Push connecting while a lock's fetch is awaited: nothing was saved, so the
   * restore raises UnboundLocalError. The fetched detail is already stored and
   * its discovery flows emitted; the keypad is not stored, no update is
   * signalled, and the exception escapes the sequential refresh.
   */
  lemma PushConnectedDuringFetch(s: Registry, id: DeviceId, d: Detail, rest: seq<DeviceId>, outcomes: seq<FetchOutcome>,
                                 pushes: seq<PushReads>)
    requires Keyed(s) && id in s.locks && |outcomes| == |rest| && |pushes| == |rest|
    ensures var after := s.(details := s.details[id := d], events := s.events + DiscoveryEvents(d));
      && RefreshOne(s, id, Fetched(d), PushReads(false, true)) == (after, Fail(UnsavedAttrs))
      && RefreshMany(s, [id] + rest, [Fetched(d)] + outcomes, [PushReads(false, true)] + pushes) == (after, Escaped(id, UnsavedAttrs))
  {
  }
}
