/**
 * The live-attribute overlay. While the push channel is connected, push
 * messages may be fresher than the detail API's cached view of a lock's door
 * and bolt state, so those attributes are saved before a refresh and put back
 * onto the freshly fetched detail afterwards.
 */
module LiveAttrs {
  import opened Devices

  /** The names of the attributes the detail API may hold a stale cache for. */
  datatype LiveAttr = DoorState | DoorStateDatetime | LockStatus | LockStatusDatetime

  const CachedAttrs: set<LiveAttr> := {DoorState, DoorStateDatetime, LockStatus, LockStatusDatetime}

  /** `getattr(detail, attr)` for a live attribute. */
  function GetAttr(d: Detail, a: LiveAttr): Value
  {
    match a
    case DoorState => d.doorState
    case DoorStateDatetime => d.doorStateDatetime
    case LockStatus => d.lockStatus
    case LockStatusDatetime => d.lockStatusDatetime
  }

  /** `setattr(detail, attr, v)` for a live attribute. */
  function SetAttr(d: Detail, a: LiveAttr, v: Value): Detail
  {
    match a
    case DoorState => d.(doorState := v)
    case DoorStateDatetime => d.(doorStateDatetime := v)
    case LockStatus => d.(lockStatus := v)
    case LockStatusDatetime => d.(lockStatusDatetime := v)
  }

  /** The detail with its live attributes blanked: everything the overlay never touches. */
  function Rest(d: Detail): Detail
  {
    d.(doorState := NoValue, doorStateDatetime := NoValue, lockStatus := NoValue, lockStatusDatetime := NoValue)
  }

  /** Saves the cached attributes of a detail, keyed by name. */
  function SaveLiveAttrs(d: Detail): (saved: map<LiveAttr, Value>)
    ensures saved.Keys == CachedAttrs
    ensures forall a :: a in saved ==> saved[a] == GetAttr(d, a)
  {
    map a | a in CachedAttrs :: GetAttr(d, a)
  }

  /** Reference meaning of a restore: each saved attribute wins, everything else is `d`'s. */
  function Restored(d: Detail, attrs: map<LiveAttr, Value>): Detail
  {
    d.(doorState := if DoorState in attrs then attrs[DoorState] else d.doorState,
       doorStateDatetime := if DoorStateDatetime in attrs then attrs[DoorStateDatetime] else d.doorStateDatetime,
       lockStatus := if LockStatus in attrs then attrs[LockStatus] else d.lockStatus,
       lockStatusDatetime := if LockStatusDatetime in attrs then attrs[LockStatusDatetime] else d.lockStatusDatetime)
  }

  /** Keeps the entries of `m` whose key is in `ks`. */
  function Only(m: map<LiveAttr, Value>, ks: set<LiveAttr>): map<LiveAttr, Value>
  {
    map a | a in m && a in ks :: m[a]
  }

  lemma RestoredStep(d: Detail, attrs: map<LiveAttr, Value>, done: set<LiveAttr>, a: LiveAttr)
    requires a in attrs && a !in done
    ensures SetAttr(Restored(d, Only(attrs, done)), a, attrs[a]) == Restored(d, Only(attrs, done + {a}))
  {
  }

  /**
   * Writes every saved attribute back onto `d`, one `setattr` at a time, in
   * whatever order the saved map yields them.
   */
  method RestoreLiveAttrs(d: Detail, attrs: map<LiveAttr, Value>) returns (r: Detail)
    ensures forall a :: a in attrs ==> GetAttr(r, a) == attrs[a]
    ensures forall a :: a !in attrs ==> GetAttr(r, a) == GetAttr(d, a)
    ensures Rest(r) == Rest(d)
    ensures r == Restored(d, attrs)
  {
    r := d;
    var todo := attrs.Keys;
    while todo != {}
      invariant todo <= attrs.Keys
      invariant r == Restored(d, Only(attrs, attrs.Keys - todo))
      decreases todo
    {
      var a :| a in todo;
      RestoredStep(d, attrs, attrs.Keys - todo, a);
      r := SetAttr(r, a, attrs[a]);
      assert attrs.Keys - todo + {a} == attrs.Keys - (todo - {a});
      todo := todo - {a};
    }
    assert Only(attrs, attrs.Keys) == attrs;
  }

  /**
   * The overlay as a refresh applies it: restoring what was saved from the
   * prior detail gives the fetched detail with the prior detail's four live
   * attributes, and every other field as fetched.
   */
  lemma OverlayKeepsLiveAttrs(prior: Detail, fetched: Detail)
    ensures Restored(fetched, SaveLiveAttrs(prior))
         == fetched.(doorState := prior.doorState, doorStateDatetime := prior.doorStateDatetime,
                     lockStatus := prior.lockStatus, lockStatusDatetime := prior.lockStatusDatetime)
    ensures forall a :: GetAttr(Restored(fetched, SaveLiveAttrs(prior)), a) == GetAttr(prior, a)
    ensures Rest(Restored(fetched, SaveLiveAttrs(prior))) == Rest(fetched)
  {
  }

  /** Restoring a save onto the same detail changes nothing. */
  lemma SaveRestoreIdentity(d: Detail)
    ensures Restored(d, SaveLiveAttrs(d)) == d
  {
  }
}
