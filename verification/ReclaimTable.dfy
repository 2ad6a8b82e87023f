/** The reclaim table as objects. An incarnation is one object that the map, its holders and its timer
    share; a critical section changes it in place, field by field, and the table then looks as the
    section's specification function says. */
module ReclaimTable {
  import opened Basics
  import opened AliasLinks
  import opened AliasTable
  import opened ReclaimCore
  import ReclaimWideSteps

  /** A ready channel. */
  class Chan {
    ghost const id: nat
    var closed: bool

    constructor (ghost id: nat)
      ensures this.id == id && !closed
    {
      this.id := id;
      closed := false;
    }
  }

  /** A slot struct. The number stands for the pointer wherever the alias layer stores it. */
  class Incarnation {
    const id: nat
    var value: Value
    var enforce: bool
    var createErr: Option<Failure>
    var state: State
    var holders: int
    var ready: Chan
    var timer: Option<nat>
    var finished: bool

    constructor (id: nat, ready: Chan, finished: bool)
      ensures this.id == id && this.ready == ready && View() == Slot(Nil, false, None, Busy, 0, ready.id, None, finished)
    {
      this.id, this.ready, this.finished := id, ready, finished;
      value, enforce, createErr, state, holders, timer := Nil, false, None, Busy, 0, None;
    }

    ghost function View(): Slot
      reads this
    {
      Slot(value, enforce, createErr, state, holders, ready.id, timer, finished)
    }
  }

  ghost function Views(slots: seq<Incarnation>): (r: seq<Slot>)
    reads slots
    ensures |r| == |slots|
  {
    seq(|slots|, i requires 0 <= i < |slots| reads slots => slots[i].View())
  }

  ghost function Shut(chans: seq<Chan>): (r: seq<bool>)
    reads chans
    ensures |r| == |chans|
  {
    seq(|chans|, c requires 0 <= c < |chans| reads chans => chans[c].closed)
  }

  ghost function Ids(items: map<Key, Incarnation>): (r: map<Key, nat>)
    ensures r.Keys == items.Keys
  {
    map k | k in items :: items[k].id
  }

  lemma IdsPut(items: map<Key, Incarnation>, key: Key, incarnation: Incarnation)
    ensures Ids(items[key := incarnation]) == Ids(items)[key := incarnation.id]
  {
  }

  lemma IdsOut(items: map<Key, Incarnation>, key: Key)
    ensures Ids(items - {key}) == Ids(items) - {key}
  {
  }

  ghost function Numbers(order: seq<Incarnation>): seq<nat> {
    seq(|order|, i requires 0 <= i < |order| => order[i].id)
  }

  lemma MappedIds(items: map<Key, Incarnation>, slots: seq<Incarnation>)
    requires forall i :: 0 <= i < |slots| ==> slots[i].id == i
    requires forall k :: k in items ==> items[k].id < |slots| && slots[items[k].id] == items[k]
    ensures forall i :: 0 <= i < |slots| ==> (slots[i] in items.Values <==> i in Ids(items).Values)
  {
    forall i | 0 <= i < |slots| ensures slots[i] in items.Values <==> i in Ids(items).Values {
      if slots[i] in items.Values {
        var k :| k in items && items[k] == slots[i];
        assert Ids(items)[k] == i;
      }
    }
  }

  lemma UnarmedAt(slots: seq<Slot>, ids: set<nat>, r: seq<Slot>)
    requires |r| == |slots| && forall i :: 0 <= i < |r| ==> r[i] == if i in ids then slots[i].(timer := None) else slots[i]
    ensures r == UnarmSlots(slots, ids)
  {
  }

  datatype Found =
    | Create(slot: Incarnation)
    | Bind(slot: Incarnation, value: Value)
    | Wake(slot: Incarnation, value: Value, enforce: bool, stop: Option<nat>)
    | Park(slot: Incarnation, ready: Chan)
    | Retry
  {
    ghost function Step(): OpenStep {
      match this
      case Create(slot) => OpenCreate(slot.id)
      case Bind(slot, value) => OpenBind(slot.id, value)
      case Wake(slot, value, enforce, stop) => OpenWake(slot.id, value, enforce, stop)
      case Park(slot, ready) => OpenPark(slot.id, ready.id)
      case Retry => OpenRetry
    }
  }

  class Table {
    const grace: int
    const names: Names
    var items: map<Key, Incarnation>
    var panicked: bool
    var serial: nat
    // Every incarnation and every ready channel made so far, by number.
    ghost var slots: seq<Incarnation>
    ghost var chans: seq<Chan>

    ghost function Abs(): Core
      reads this, names, slots, chans
    {
      Core(grace, Ids(items), Views(slots), Shut(chans), panicked, names.Abs())
    }

    ghost predicate Known(incarnation: Incarnation)
      reads this
    {
      incarnation.id < |slots| && slots[incarnation.id] == incarnation
    }

    ghost predicate Made(ch: Chan)
      reads this
    {
      ch.id < |chans| && chans[ch.id] == ch
    }

    ghost predicate Numbered()
      reads this, slots
    {
      && serial == |slots|
      && (forall i :: 0 <= i < |slots| ==> slots[i].id == i && Made(slots[i].ready))
      && (forall c :: 0 <= c < |chans| ==> chans[c].id == c)
      && (forall k :: k in items ==> Known(items[k]))
    }

    ghost predicate Valid()
      reads this, names, slots, chans
    {
      names.Valid() && Numbered()
    }

    constructor (grace: int)
      ensures Valid() && Abs() == EmptyCore(grace) && fresh(names)
      ensures this.grace == (if grace < 0 then 10_000_000_000 else grace) && items == map[] && slots == []
    {
      this.grace := if grace < 0 then DEFAULT_GRACE else grace;
      items, slots, chans, panicked, serial := map[], [], [], false, 0;
      names := new Names();
    }

    // -------------------------------------------------------------- parts of a section

    method MakeChan() returns (ch: Chan)
      requires Numbered()
      modifies this`chans
      ensures Numbered() && fresh(ch) && Made(ch) && !ch.closed
      ensures ch.id == |old(chans)| && chans == old(chans) + [ch] && Shut(chans) == old(Shut(chans)) + [false]
    {
      ch := new Chan(|chans|);
      chans := chans + [ch];
    }

    method MakeSlot(ready: Chan, finished: bool) returns (slot: Incarnation)
      requires Numbered() && Made(ready)
      modifies this`slots, this`serial
      ensures Numbered() && fresh(slot) && Known(slot) && slot.ready == ready
      ensures slot.id == |old(slots)| && slots == old(slots) + [slot]
      ensures Views(slots) == old(Views(slots)) + [Slot(Nil, false, None, Busy, 0, ready.id, None, finished)]
    {
      slot := new Incarnation(serial, ready, finished);
      slots, serial := slots + [slot], serial + 1;
    }

    method Close(ch: Chan)
      requires Valid() && Made(ch)
      modifies ch, this`panicked
      ensures Valid() && Abs() == CloseChan(old(Abs()), ch.id)
    {
      hide Consistent, Views;
      if ch.closed { panicked := true; } else {
        ch.closed := true;
        assert Shut(chans) == old(Shut(chans))[ch.id := true];
      }
    }

    /** What the table shows of an incarnation. */
    lemma Shows(incarnation: Incarnation)
      requires Valid() && Known(incarnation)
      ensures incarnation.id < |Abs().slots| && Abs().slots[incarnation.id] == incarnation.View()
      ensures Made(incarnation.ready) && incarnation.ready.id < |Abs().closed|
    {
      hide Consistent;
    }

    lemma ShowsMapped(key: Key, incarnation: Incarnation)
      requires Valid() && Known(incarnation)
      ensures Mapped(Abs(), key, incarnation.id) <==> key in items && items[key] == incarnation
    {
      hide Consistent;
    }

    method Unmap(key: Key, incarnation: Incarnation)
      requires Valid() && Known(incarnation)
      modifies this`items
      ensures Valid() && Abs() == UnmapIf(old(Abs()), key, incarnation.id)
    {
      hide Consistent, Views, Shut;
      IdsOut(items, key);
      if key in items && items[key] == incarnation { items := items - {key}; }
    }

    method Map(key: Key, incarnation: Incarnation)
      requires Valid() && Known(incarnation)
      modifies this`items
      ensures Valid() && Abs() == old(Abs()).(items := old(Abs()).items[key := incarnation.id])
    {
      hide Consistent, Views, Shut;
      IdsPut(items, key, incarnation);
      items := items[key := incarnation];
    }

    /** A transition starts: the incarnation is busy on a channel of its own. */
    method GoBusy(incarnation: Incarnation)
      requires Valid() && Known(incarnation)
      modifies this`chans, incarnation`state, incarnation`ready
      ensures Valid() && Abs() == WithSlot(old(Abs()), incarnation.id, old(incarnation.View()).(state := Busy, ready := |old(Abs()).closed|))
                                    .(closed := old(Abs()).closed + [false])
      ensures incarnation.View() == Abs().slots[incarnation.id]
    {
      hide Consistent, Ids;
      incarnation.ready := MakeChan();
      incarnation.state := Busy;
      assert Views(slots) == old(Views(slots))[incarnation.id := incarnation.View()];
    }

    /** The incarnation has ended, whatever is left of it in the map. */
    method Finish(incarnation: Incarnation, err: Option<Failure>)
      requires Valid() && Known(incarnation)
      modifies incarnation`createErr, incarnation`state, incarnation`finished
      ensures Valid() && Abs() == WithSlot(old(Abs()), incarnation.id, old(incarnation.View()).(createErr := err, state := Gone, finished := false))
    {
      hide Consistent, Ids, Shut;
      incarnation.createErr, incarnation.state := err, Gone;
      incarnation.finished := false;
      assert Views(slots) == old(Views(slots))[incarnation.id := incarnation.View()];
    }

    /** A new busy incarnation under the key. */
    method Begin(key: Key, finished: bool) returns (slot: Incarnation)
      requires Valid()
      modifies this`items, this`slots, this`serial, this`chans
      ensures Valid() && Known(slot) && slot.id == |old(Abs()).slots| && fresh(slot)
      ensures Abs() == old(Abs()).(items := old(Abs()).items[key := slot.id], slots := old(Abs()).slots + [BusySlot(old(Abs()), finished)],
                                   closed := old(Abs()).closed + [false])
    {
      hide Consistent, Ids, Views, Shut;
      var ready := MakeChan();
      slot := MakeSlot(ready, finished);
      Map(key, slot);
    }

    method Count(incarnation: Incarnation, n: int)
      requires Valid() && Known(incarnation)
      modifies incarnation`holders
      ensures Valid() && Abs() == WithSlot(old(Abs()), incarnation.id, old(incarnation.View()).(holders := old(incarnation.holders) + n))
    {
      hide Consistent, Ids, Shut;
      incarnation.holders := incarnation.holders + n;
      assert Views(slots) == old(Views(slots))[incarnation.id := incarnation.View()];
    }

    method Turn(incarnation: Incarnation, state: State)
      requires Valid() && Known(incarnation)
      modifies incarnation`state
      ensures Valid() && incarnation.state == state && Abs() == WithSlot(old(Abs()), incarnation.id, old(incarnation.View()).(state := state))
    {
      hide Consistent, Ids, Shut;
      incarnation.state := state;
      assert Views(slots) == old(Views(slots))[incarnation.id := incarnation.View()];
    }

    method Arm(incarnation: Incarnation, timer: nat)
      requires Valid() && Known(incarnation)
      modifies incarnation`timer
      ensures Valid() && Abs() == WithSlot(old(Abs()), incarnation.id, old(incarnation.View()).(timer := Some(timer)))
    {
      hide Consistent, Ids, Shut;
      incarnation.timer := Some(timer);
      assert Views(slots) == old(Views(slots))[incarnation.id := incarnation.View()];
    }

    method Put(incarnation: Incarnation, value: Value, enforce: bool)
      requires Valid() && Known(incarnation)
      modifies incarnation`value, incarnation`enforce, incarnation`state, incarnation`holders
      ensures Valid() && Abs() == WithSlot(old(Abs()), incarnation.id, old(incarnation.View()).(value := value, enforce := enforce, state := Awake,
                                                                                            holders := old(incarnation.holders) + 1))
    {
      hide Consistent, Ids, Shut;
      incarnation.value, incarnation.enforce, incarnation.state := value, enforce, Awake;
      incarnation.holders := incarnation.holders + 1;
      assert Views(slots) == old(Views(slots))[incarnation.id := incarnation.View()];
    }

    /** Open on an incarnation that sleeps: it wakes with its timer disarmed and one holder more. */
    method Rouse(slot: Incarnation) returns (stop: Option<nat>)
      requires Valid() && Known(slot)
      modifies this`chans, slot`state, slot`ready, slot`timer, slot`holders
      ensures Valid() && stop == old(slot.timer)
      ensures Abs() == WithSlot(old(Abs()), slot.id, old(slot.View()).(state := Busy, ready := |old(Abs()).closed|, timer := None,
                                                                     holders := old(slot.holders) + 1))
                         .(closed := old(Abs()).closed + [false])
    {
      hide Consistent, Ids, Shut;
      GoBusy(slot);
      stop := slot.timer;
      if slot.timer.Some? { slot.timer := None; }
      slot.holders := slot.holders + 1;
      assert Views(slots) == old(Views(slots))[slot.id := slot.View()];
    }

    // -------------------------------------------------------------- the sections

    method LookupOpenSection(key: Key) returns (found: Found)
      requires Valid()
      modifies this`items, this`slots, this`serial, this`chans, if key in items then {items[key]} else {}
      ensures Valid() && (Abs(), found.Step()) == LookupOpen(old(Abs()), key)
      ensures found.Retry? || Known(found.slot)
    {
      hide Consistent, Ids, Views, Shut;
      if key !in items {
        var slot := Begin(key, true);
        return Create(slot);
      }
      var slot := items[key];
      Shows(slot);
      ShowsMapped(key, slot);
      match slot.state
      case Awake =>
        Count(slot, 1);
        return Bind(slot, slot.value);
      case Asleep =>
        var stop := Rouse(slot);
        return Wake(slot, slot.value, slot.enforce, stop);
      case Busy =>
        return Park(slot, slot.ready);
      case Gone =>
        Unmap(key, slot);
        return Retry;
    }

    method PublishPutSection(key: Key, incarnation: Incarnation, value: Value, enforce: bool)
      requires Valid() && Known(incarnation)
      modifies this`items, this`panicked, incarnation`value, incarnation`enforce, incarnation`state, incarnation`holders, incarnation.ready
      ensures Valid() && Abs() == PublishPut(old(Abs()), key, incarnation.id, value, enforce)
    {
      hide Consistent, Ids, Views, Shut;
      Shows(incarnation);
      Put(incarnation, value, enforce);
      Map(key, incarnation);
      Close(incarnation.ready);
    }

    method PublishWakeSection(incarnation: Incarnation)
      requires Valid() && Known(incarnation)
      modifies this`panicked, incarnation`state, incarnation.ready
      ensures Valid() && Abs() == PublishWake(old(Abs()), incarnation.id)
    {
      hide Consistent, Ids, Views, Shut;
      Shows(incarnation);
      Turn(incarnation, Awake);
      Close(incarnation.ready);
    }

    method ReleaseHolderSection(incarnation: Incarnation)
      requires Valid() && Known(incarnation)
      modifies incarnation`holders
      ensures Valid() && Abs() == ReleaseHolder(old(Abs()), incarnation.id)
    {
      hide Consistent, Ids, Views, Shut;
      Shows(incarnation);
      Count(incarnation, -1);
    }

    /** A claimed incarnation is busy on a channel of its own; a busy one is reported with its channel. */
    method ClaimDropSection(incarnation: Incarnation) returns (claimed: bool, parked: Option<Chan>)
      requires Valid() && Known(incarnation)
      modifies this`chans, incarnation`state, incarnation`ready
      ensures Valid() && Abs() == ClaimDrop(old(Abs()), incarnation.id).0
      ensures match ClaimDrop(old(Abs()), incarnation.id).1
              case DropPark(ready) => !claimed && parked.Some? && Made(parked.value) && parked.value.id == ready
              case DropStop => !claimed && parked.None?
              case DropClaim(enforce, _) => claimed && parked.None? && incarnation.enforce == enforce
    {
      hide Consistent, Ids, Views, Shut;
      Shows(incarnation);
      if incarnation.state == Busy { return false, Some(incarnation.ready); }
      if incarnation.holders == 0 && incarnation.state == Awake {
        GoBusy(incarnation);
        return true, None;
      }
      return false, None;
    }

    /** `timer` is the handle of the timer the runtime arms when the result is true. */
    method ParkAsleepSection(key: Key, incarnation: Incarnation, timer: nat) returns (mapped: bool)
      requires Valid() && Known(incarnation)
      modifies this`items, this`panicked, incarnation`state, incarnation`timer, incarnation.ready
      ensures Valid() && (Abs(), mapped) == ParkAsleep(old(Abs()), key, incarnation.id, grace, timer)
    {
      hide Consistent, Ids, Views, Shut;
      Shows(incarnation);
      ShowsMapped(key, incarnation);
      Turn(incarnation, Asleep);
      Close(incarnation.ready);
      mapped := key in items && items[key] == incarnation;
      if mapped && grace <= 0 {
        Unmap(key, incarnation);
        mapped := false;
      }
      if mapped { Arm(incarnation, timer); }
    }

    method ClaimExpireSection(key: Key, incarnation: Incarnation) returns (step: ExpireStep)
      requires Valid() && Known(incarnation)
      modifies this`items, this`chans, incarnation
      ensures Valid() && (Abs(), step) == ClaimExpire(old(Abs()), key, incarnation.id)
    {
      hide Consistent, Ids, Views, Shut;
      Shows(incarnation);
      if incarnation.state == Asleep && incarnation.holders == 0 {
        if incarnation.enforce {
          GoBusy(incarnation);
          return ExpireEnforce;
        }
        Finish(incarnation, incarnation.createErr);
        Unmap(key, incarnation);
        return ExpireDispose;
      }
      return ExpireSkip;
    }

    method EndBusySlotSection(key: Key, incarnation: Incarnation, err: Option<Failure>)
      requires Valid() && Known(incarnation)
      modifies this`items, this`panicked, incarnation, incarnation.ready, names
      ensures Valid() && Abs() == EndBusySlot(old(Abs()), key, incarnation.id, err)
    {
      hide Consistent, Unbind, Ids, Views, Shut;
      Shows(incarnation);
      Finish(incarnation, err);
      names.UnbindIncarnationLocked(incarnation.id);
      Unmap(key, incarnation);
      assert Abs() == Ended(old(Abs()), key, incarnation.id, err);
      hide Ended;
      Close(incarnation.ready);
    }

    method UnmapLockedSection(key: Key, incarnation: Incarnation) returns (ready: Chan)
      requires Valid() && Known(incarnation)
      modifies this`items, incarnation`createErr, incarnation`state, incarnation`finished, names
      ensures Valid() && Abs() == UnmapLocked(old(Abs()), key, incarnation.id) && ready == old(incarnation.ready)
    {
      hide Consistent, Unbind, Ids, Views, Shut;
      Shows(incarnation);
      Unmap(key, incarnation);
      Finish(incarnation, incarnation.createErr);
      names.UnbindIncarnationLocked(incarnation.id);
      return incarnation.ready;
    }

    method InstallCloserSection(key: Key, incarnation: Incarnation, err: Option<Failure>) returns (closer: Incarnation, oldReady: Chan)
      requires Valid() && Known(incarnation)
      modifies this`items, this`slots, this`serial, this`chans, incarnation`createErr, incarnation`state, incarnation`finished, names
      ensures Valid() && Abs() == InstallCloser(old(Abs()), key, incarnation.id, err)
      ensures Known(closer) && closer.id == |old(Abs()).slots| && oldReady == old(incarnation.ready)
    {
      hide Consistent, Unbind, Ids, Views, Shut;
      Shows(incarnation);
      Finish(incarnation, err);
      names.UnbindIncarnationLocked(incarnation.id);
      oldReady := incarnation.ready;
      closer := Begin(key, false);
    }

    /** The first loop of takeAll. */
    method UnbindEach(order: seq<Incarnation>)
      requires names.Valid()
      modifies names
      ensures names.Valid() && names.Abs() == UnbindAll(old(names.Abs()), Numbers(order))
    {
      hide Consistent, Unbind;
      ghost var links := names.Abs();
      ghost var ids := Numbers(order);
      var k := 0;
      while k < |order|
        invariant 0 <= k <= |order| && names.Valid() && names.Abs() == UnbindAll(links, ids[..k])
      {
        names.UnbindIncarnationLocked(order[k].id);
        assert ids[..k + 1][..k] == ids[..k];
        k := k + 1;
      }
      assert ids[..|order|] == ids;
    }

    /** The second loop of takeAll. */
    method UnarmEach(order: seq<Incarnation>)
      modifies order
      ensures forall x :: x in order ==> x.View() == old(x.View()).(timer := None) && x.ready == old(x.ready)
    {
      var k := 0;
      while k < |order|
        invariant 0 <= k <= |order|
        invariant forall x :: x in order ==>
                    x.View() == old(x.View()).(timer := if x in order[..k] then None else old(x.timer)) && x.ready == old(x.ready)
      {
        var slot := order[k];
        if slot.timer.Some? { slot.timer := None; }
        assert order[..k + 1] == order[..k] + [slot];
        k := k + 1;
      }
      assert order[..|order|] == order;
    }

    method UnarmTaken(order: seq<Incarnation>, ghost taken: map<Key, Incarnation>)
      requires Numbered() && (set x | x in order) == taken.Values && forall k :: k in taken ==> Known(taken[k])
      modifies order
      ensures Numbered() && Views(slots) == UnarmSlots(old(Views(slots)), Ids(taken).Values)
    {
      hide UnarmSlots;
      MappedIds(taken, slots);
      UnarmEach(order);
      assert forall i :: 0 <= i < |slots| ==> (slots[i] in order <==> i in Ids(taken).Values);
      UnarmedAt(old(Views(slots)), Ids(taken).Values, Views(slots));
    }

    /** takeAll: `order` is the order in which the runtime walks the old map. */
    method TakeAllSection(order: seq<Incarnation>) returns (taken: map<Key, Incarnation>)
      requires Valid() && (set x | x in order) == items.Values
      modifies this`items, order, names
      ensures Valid() && Abs() == TakeAll(old(Abs()), Numbers(order)) && taken == old(items)
    {
      hide Consistent, UnbindAll, Shut, UnarmSlots, Views;
      taken := items;
      items := map[];
      UnbindEach(order);
      ReclaimWideSteps.ForgetNames(names.Abs());
      names.aliases := map[];
      UnarmTaken(order, taken);
      assert Ids(items) == map[];
    }

    method EndResetSlotSection(incarnation: Incarnation) returns (state: State)
      requires Valid() && Known(incarnation)
      modifies incarnation`createErr, incarnation`state, incarnation`finished
      ensures Valid() && (Abs(), state) == EndResetSlot(old(Abs()), incarnation.id)
    {
      hide Consistent, Ids, Views, Shut;
      Shows(incarnation);
      state := incarnation.state;
      if state == Awake || state == Asleep { Finish(incarnation, incarnation.createErr); }
    }

    method SetAliasSection(key: Key, alias: Name, publisher: string, group: string) returns (outcome: Outcome)
      requires Valid()
      modifies names
      ensures Valid() && outcome == SetAlias(old(Abs()).links, AliasTarget(old(Abs()), key), alias, publisher, group).1
      ensures Abs() == old(Abs()).(links := SetAlias(old(Abs()).links, AliasTarget(old(Abs()), key), alias, publisher, group).0)
    {
      hide Consistent, Views, Shut, SetAlias;
      var target: Option<Ref> := None;
      if key in items {
        var slot := items[key];
        Shows(slot);
        if slot.state == Awake || slot.state == Asleep { target := Some(Ref(slot.id, slot.value)); }
      }
      outcome := names.Set(target, alias, publisher, group);
    }
  }
}
