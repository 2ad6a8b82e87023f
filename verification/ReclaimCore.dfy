/** The critical sections of the reclaim table, each as a function of the state the mutex
    guards. Every function here is one Lock..Unlock region. */
module ReclaimCore {
  import opened Basics
  import opened AliasLinks

  type Key = string

  datatype State = Busy | Awake | Asleep | Gone

  datatype Failure = CreateFailed | WakePanicked

  /** One incarnation. `enforce` is the stored EnforceCloseBeforeOpen; `finished` is true while
      the finished channel is open; `timer` is the handle of the grace timer last armed. */
  datatype Slot = Slot(value: Value, enforce: bool, createErr: Option<Failure>, state: State,
                       holders: int, ready: nat, timer: Option<nat>, finished: bool)

  /** `closed[c]` says whether channel c has been closed; closing one twice panics. */
  datatype Core = Core(grace: int, items: map<Key, nat>, slots: seq<Slot>, closed: seq<bool>,
                       panicked: bool, links: Links)

  datatype OpenStep =
    | OpenCreate(id: nat)
    | OpenBind(id: nat, value: Value)
    | OpenWake(id: nat, value: Value, enforce: bool, stop: Option<nat>)
    | OpenPark(id: nat, ready: nat)
    | OpenRetry

  datatype DropStep = DropPark(ready: nat) | DropStop | DropClaim(enforce: bool, grace: int)

  datatype ExpireStep = ExpireSkip | ExpireEnforce | ExpireDispose

  /** Ten seconds, in nanoseconds. */
  const DEFAULT_GRACE := 10_000_000_000

  function EmptyCore(grace: int): Core {
    Core(if grace < 0 then DEFAULT_GRACE else grace, map[], [], [], false, NoLinks)
  }

  predicate Mapped(c: Core, key: Key, id: nat) {
    key in c.items && c.items[key] == id
  }

  function WithSlot(c: Core, id: nat, s: Slot): Core
    requires id < |c.slots|
  {
    c.(slots := c.slots[id := s])
  }

  function CloseChan(c: Core, ch: nat): Core
    requires ch < |c.closed|
  {
    if c.closed[ch] then c.(panicked := true) else c.(closed := c.closed[ch := true])
  }

  function UnmapIf(c: Core, key: Key, id: nat): Core {
    if Mapped(c, key, id) then c.(items := c.items - {key}) else c
  }

  /** Unmaps a slot, marks it gone and ends its aliases: what every ending path does. */
  function Ended(c: Core, key: Key, id: nat, err: Option<Failure>): Core
    requires id < |c.slots|
  {
    var gone := c.slots[id].(createErr := err, state := Gone, finished := false);
    UnmapIf(WithSlot(c, id, gone), key, id).(links := Unbind(c.links, id))
  }

  function EndBusySlot(c: Core, key: Key, id: nat, err: Option<Failure>): Core
    requires id < |c.slots| && c.slots[id].ready < |c.closed|
  {
    CloseChan(Ended(c, key, id, err), c.slots[id].ready)
  }

  function UnmapLocked(c: Core, key: Key, id: nat): Core
    requires id < |c.slots|
  {
    Ended(c, key, id, c.slots[id].createErr)
  }

  /** A busy slot on a new channel. */
  function BusySlot(c: Core, finished: bool): Slot {
    Slot(Nil, false, None, Busy, 0, |c.closed|, None, finished)
  }

  function InstallCloser(c: Core, key: Key, id: nat, err: Option<Failure>): Core
    requires id < |c.slots|
  {
    var gone := c.slots[id].(createErr := err, state := Gone, finished := false);
    c.(slots := c.slots[id := gone] + [BusySlot(c, false)],
       closed := c.closed + [false],
       items := c.items[key := |c.slots|],
       links := Unbind(c.links, id))
  }

  function LookupOpen(c: Core, key: Key): (Core, OpenStep)
    requires key in c.items ==> c.items[key] < |c.slots|
  {
    if key !in c.items then
      (c.(items := c.items[key := |c.slots|], slots := c.slots + [BusySlot(c, true)], closed := c.closed + [false]),
       OpenCreate(|c.slots|))
    else
      var id := c.items[key];
      var s := c.slots[id];
      match s.state
      case Awake => (WithSlot(c, id, s.(holders := s.holders + 1)), OpenBind(id, s.value))
      case Asleep =>
        (WithSlot(c, id, s.(state := Busy, ready := |c.closed|, timer := None, holders := s.holders + 1))
           .(closed := c.closed + [false]),
         OpenWake(id, s.value, s.enforce, s.timer))
      case Busy => (c, OpenPark(id, s.ready))
      case Gone => (c.(items := c.items - {key}), OpenRetry)
  }

  function PublishPut(c: Core, key: Key, id: nat, value: Value, enforce: bool): Core
    requires id < |c.slots| && c.slots[id].ready < |c.closed|
  {
    var s := c.slots[id];
    CloseChan(WithSlot(c, id, s.(value := value, enforce := enforce, state := Awake, holders := s.holders + 1))
                .(items := c.items[key := id]), s.ready)
  }

  function PublishWake(c: Core, id: nat): Core
    requires id < |c.slots| && c.slots[id].ready < |c.closed|
  {
    CloseChan(WithSlot(c, id, c.slots[id].(state := Awake)), c.slots[id].ready)
  }

  function ReleaseHolder(c: Core, id: nat): Core
    requires id < |c.slots|
  {
    WithSlot(c, id, c.slots[id].(holders := c.slots[id].holders - 1))
  }

  function ClaimDrop(c: Core, id: nat): (Core, DropStep)
    requires id < |c.slots|
  {
    var s := c.slots[id];
    if s.state == Busy then (c, DropPark(s.ready))
    else if s.holders == 0 && s.state == Awake then
      (WithSlot(c, id, s.(state := Busy, ready := |c.closed|)).(closed := c.closed + [false]),
       DropClaim(s.enforce, c.grace))
    else (c, DropStop)
  }

  /** `timer` is the handle the runtime would give the timer armed here. The flag is false when
      the caller must expire the slot now. */
  function ParkAsleep(c: Core, key: Key, id: nat, grace: int, timer: nat): (Core, bool)
    requires id < |c.slots| && c.slots[id].ready < |c.closed|
  {
    var s := c.slots[id].(state := Asleep);
    var parked := CloseChan(WithSlot(c, id, s), s.ready);
    if Mapped(c, key, id) && grace > 0 then
      (WithSlot(parked, id, s.(timer := Some(timer))), true)
    else
      (UnmapIf(parked, key, id), false)
  }

  function ClaimExpire(c: Core, key: Key, id: nat): (Core, ExpireStep)
    requires id < |c.slots|
  {
    var s := c.slots[id];
    if s.state == Asleep && s.holders == 0 then
      if s.enforce then
        (WithSlot(c, id, s.(state := Busy, ready := |c.closed|)).(closed := c.closed + [false]), ExpireEnforce)
      else
        (UnmapIf(WithSlot(c, id, s.(state := Gone, finished := false)), key, id), ExpireDispose)
    else (c, ExpireSkip)
  }

  function UnbindAll(l: Links, ids: seq<nat>): Links {
    if ids == [] then l else Unbind(UnbindAll(l, ids[..|ids| - 1]), ids[|ids| - 1])
  }

  function UnarmSlots(slots: seq<Slot>, ids: set<nat>): (r: seq<Slot>)
    ensures |r| == |slots| && forall i :: 0 <= i < |r| ==> r[i] == slots[i].(timer := r[i].timer)
  {
    seq(|slots|, i requires 0 <= i < |slots| => if i in ids then slots[i].(timer := None) else slots[i])
  }

  /** Reset's first section: everything mapped is swapped out. `order` is the order in which the
      map is walked. */
  function TakeAll(c: Core, order: seq<nat>): Core {
    c.(items := map[],
       slots := UnarmSlots(c.slots, c.items.Values),
       links := UnbindAll(c.links, order).(aliases := map[]))
  }

  /** Reset's per-slot section; it reports the state it found. */
  function EndResetSlot(c: Core, id: nat): (Core, State)
    requires id < |c.slots|
  {
    var s := c.slots[id];
    (if s.state == Awake || s.state == Asleep then WithSlot(c, id, s.(state := Gone, finished := false)) else c,
     s.state)
  }

  /** What SetAlias finds under the key: a value that is awake or asleep, or nothing. */
  function AliasTarget(c: Core, key: Key): Option<Ref> {
    if key in c.items && c.items[key] < |c.slots|
       && (c.slots[c.items[key]].state == Awake || c.slots[c.items[key]].state == Asleep)
    then Some(Ref(c.items[key], c.slots[c.items[key]].value)) else None
  }
}
