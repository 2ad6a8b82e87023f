/** Every action of the reclaim table keeps the invariant. Each action has a lemma about the
    slot it changes, on values alone, and one that lifts it to the whole system. */
module ReclaimSteps {
  import opened Basics
  import opened AliasLinks
  import opened ReclaimCore
  import opened ReclaimSystem
  import opened ReclaimInvariant
  import opened ReclaimFrame

  /** What a slot's own invariant says about the slots a goroutine is moving. */
  lemma Settled(s: System, id: nat)
    requires SlotsInv(s) && id < |s.core.slots|
    ensures var sl, n := s.core.slots[id], s.notes[id];
            && SlotOK(id, sl, n, s.pcs, s.resetUsed)
            && (n.owner.Some? ==> n.owner.value < |s.pcs| && InTransition(id, sl, n, n.owner.value, s.pcs[n.owner.value], s.resetUsed))
            && (sl.state == Asleep ==> n.holders == {} && sl.holders == 0 && PhaseOf(n.trace) == Down)
            && (sl.state != Gone ==> sl.holders == |n.holders|)
            && (sl.timer.Some? ==> sl.timer.value < |s.pcs| && (s.pcs[sl.timer.value].Armed? ==> s.pcs[sl.timer.value].id == id))
  {
  }

  lemma ReleaseSlot(i: nat, sl: Slot, n: Note, pcs: seq<Pc>, t: nat, key: Key, sl': Slot, n': Note, pc': Pc, resetUsed: bool)
    requires SlotOK(i, sl, n, pcs, resetUsed) && t < |pcs|
    requires pcs[t] == Holding(key, i, sl.value) && n.put && n.key == key && (sl.state == Awake || (sl.state == Gone && resetUsed)) && (sl.state != Gone ==> t in n.holders)
    requires sl' == sl.(holders := sl.holders - 1)
    requires n' == n.(holders := n.holders - {t}, reaper := if sl.state == Awake then t else n.reaper)
    requires pc' == Dropping(key, i)
    ensures SlotOK(i, sl', n', pcs[t := pc'], resetUsed)
    ensures GoodMove(t, pcs[t], pc', i, sl, n, sl', n', resetUsed)
  {
  }

  lemma ReleaseKeeps(s: System, t: nat)
    requires Inv(s) && t < |s.pcs| && s.pcs[t].Holding? && SlotIn(s, s.pcs[t].id)
    ensures Inv(ReleaseStep(s, t))
  {
    hide SlotOK, GoodMove, Moves, LetsGoOnly, Consistent, RefOK;
    var r := ReleaseStep(s, t);
    var Holding(key, id, value) := s.pcs[t];
    assert PcOK(s, t, s.pcs[t]);
    var sl, n := s.core.slots[id], s.notes[id];
    var sl' := sl.(holders := sl.holders - 1);
    var n' := n.(holders := n.holders - {t}, reaper := if sl.state == Awake then t else n.reaper);
    var pc' := Dropping(key, id);
    Settled(s, id);
    ReleaseSlot(id, sl, n, s.pcs, t, key, sl', n', pc', s.resetUsed);
    assert !s.resetUsed ==> MappedOK(id, sl, n, s.core);
    OneInv(s, r, t, pc', id, sl', n', [], false, Effect(Still, Stays));
  }

  lemma WakeOkSlot(i: nat, sl: Slot, n: Note, pcs: seq<Pc>, t: nat, key: Key, ch: nat, sl': Slot, n': Note, pc': Pc, resetUsed: bool)
    requires SlotOK(i, sl, n, pcs, resetUsed) && t < |pcs|
    requires pcs[t] == Waking(key, i, ch, sl.value, sl.enforce) && n.owner == Some(t)
    requires sl' == sl.(state := Awake)
    requires n' == Logged(n, WakeEnd).(owner := None)
    requires pc' == Holding(key, i, sl.value)
    ensures SlotOK(i, sl', n', pcs[t := pc'], resetUsed)
    ensures GoodMove(t, pcs[t], pc', i, sl, n, sl', n', resetUsed)
  {
    PhaseStep(n.trace, WakeEnd);
  }

  lemma WakeOkKeeps(s: System, t: nat)
    requires Inv(s) && t < |s.pcs| && s.pcs[t].Waking? && SlotIn(s, s.pcs[t].id)
    ensures Inv(WakeOkStep(s, t))
  {
    hide SlotOK, GoodMove, Moves, LetsGoOnly, Consistent, RefOK;
    var r := WakeOkStep(s, t);
    var Waking(key, id, ch, value, enforce) := s.pcs[t];
    assert PcOK(s, t, s.pcs[t]);
    var sl, n := s.core.slots[id], s.notes[id];
    var sl' := sl.(state := Awake);
    var n' := Logged(n, WakeEnd).(owner := None);
    var pc' := Holding(key, id, sl.value);
    Settled(s, id);
    WakeOkSlot(id, sl, n, s.pcs, t, key, ch, sl', n', pc', s.resetUsed);
    assert !s.resetUsed ==> MappedOK(id, sl, n, s.core);
    OneInv(s, r, t, pc', id, sl', n', [], false, Effect(Closes(ch), Stays));
  }

  lemma ClaimSlot(i: nat, sl: Slot, n: Note, pcs: seq<Pc>, t: nat, key: Key, ch: nat, sl': Slot, n': Note, pc': Pc, resetUsed: bool)
    requires SlotOK(i, sl, n, pcs, resetUsed) && t < |pcs|
    requires pcs[t] == Dropping(key, i) && sl.state == Awake && sl.holders == 0 && n.key == key
    requires sl' == sl.(state := Busy, ready := ch)
    requires n' == Logged(n, SleepBegin).(owner := Some(t))
    requires pc' == Sleeping(key, i, ch, sl.enforce)
    ensures SlotOK(i, sl', n', pcs[t := pc'], resetUsed)
    ensures GoodMove(t, pcs[t], pc', i, sl, n, sl', n', resetUsed)
  {
    PhaseStep(n.trace, SleepBegin);
  }

  lemma ClaimKeeps(s: System, t: nat)
    requires Inv(s) && t < |s.pcs| && s.pcs[t].Dropping? && SlotIn(s, s.pcs[t].id) && s.core.slots[s.pcs[t].id].state == Awake && s.core.slots[s.pcs[t].id].holders == 0
    ensures Inv(ClaimStep(s, t))
  {
    hide SlotOK, GoodMove, Moves, LetsGoOnly, Consistent, RefOK;
    var r := ClaimStep(s, t);
    var Dropping(key, id) := s.pcs[t];
    assert PcOK(s, t, s.pcs[t]);
    var sl, n := s.core.slots[id], s.notes[id];
    var sl' := sl.(state := Busy, ready := |s.core.closed|);
    var n' := Logged(n, SleepBegin).(owner := Some(t));
    var pc' := Sleeping(key, id, |s.core.closed|, sl.enforce);
    Settled(s, id);
    ClaimSlot(id, sl, n, s.pcs, t, key, |s.core.closed|, sl', n', pc', s.resetUsed);
    assert !s.resetUsed ==> MappedOK(id, sl, n, s.core);
    OneInv(s, r, t, pc', id, sl', n', [], false, Effect(Opens, Stays));
  }

  lemma CreateOkSlot(i: nat, sl: Slot, n: Note, pcs: seq<Pc>, t: nat, key: Key, ch: nat, value: Value, enforce: bool,
                     sl': Slot, n': Note, pc': Pc, resetUsed: bool)
    requires SlotOK(i, sl, n, pcs, resetUsed) && t < |pcs|
    requires pcs[t] == Creating(key, i, ch) && n.owner == Some(t)
    requires sl' == sl.(value := value, enforce := enforce, state := Awake, holders := sl.holders + 1)
    requires n' == n.(owner := None, holders := n.holders + {t}, put := true)
    requires pc' == Holding(key, i, value)
    ensures SlotOK(i, sl', n', pcs[t := pc'], resetUsed)
    ensures GoodMove(t, pcs[t], pc', i, sl, n, sl', n', resetUsed)
  {
  }

  lemma CreateOkKeeps(s: System, t: nat, value: Value, enforce: bool)
    requires Inv(s) && t < |s.pcs| && s.pcs[t].Creating? && SlotIn(s, s.pcs[t].id)
    ensures Inv(CreateOkStep(s, t, value, enforce))
  {
    hide SlotOK, GoodMove, Moves, LetsGoOnly, Consistent, RefOK;
    var r := CreateOkStep(s, t, value, enforce);
    var Creating(key, id, ch) := s.pcs[t];
    assert PcOK(s, t, s.pcs[t]);
    var sl, n := s.core.slots[id], s.notes[id];
    var sl' := sl.(value := value, enforce := enforce, state := Awake, holders := sl.holders + 1);
    var n' := n.(owner := None, holders := n.holders + {t}, put := true);
    Settled(s, id);
    CreateOkSlot(id, sl, n, s.pcs, t, key, ch, value, enforce, sl', n', Holding(key, id, value), s.resetUsed);
    assert !s.resetUsed ==> MappedOK(id, sl, n, s.core);
    OneInv(s, r, t, Holding(key, id, value), id, sl', n', [], false, Effect(Closes(ch), Enters));
  }

  lemma CreateFailSlot(i: nat, sl: Slot, n: Note, pcs: seq<Pc>, t: nat, key: Key, ch: nat, sl': Slot, n': Note, pc': Pc, resetUsed: bool)
    requires SlotOK(i, sl, n, pcs, resetUsed) && t < |pcs|
    requires pcs[t] == Creating(key, i, ch) && n.owner == Some(t)
    requires sl' == sl.(createErr := Some(CreateFailed), state := Gone, finished := false)
    requires n' == n.(owner := None)
    requires pc' == Done
    ensures SlotOK(i, sl', n', pcs[t := pc'], resetUsed)
    ensures GoodMove(t, pcs[t], pc', i, sl, n, sl', n', resetUsed)
  {
  }

  lemma CreateFailKeeps(s: System, t: nat)
    requires Inv(s) && t < |s.pcs| && s.pcs[t].Creating? && SlotIn(s, s.pcs[t].id)
    ensures Inv(CreateFailStep(s, t))
  {
    hide SlotOK, GoodMove, Moves, LetsGoOnly, Consistent, RefOK;
    var r := CreateFailStep(s, t);
    var Creating(key, id, ch) := s.pcs[t];
    assert PcOK(s, t, s.pcs[t]);
    var sl, n := s.core.slots[id], s.notes[id];
    var sl' := sl.(createErr := Some(CreateFailed), state := Gone, finished := false);
    var n' := n.(owner := None);
    var pc' := Done;
    Settled(s, id);
    CreateFailSlot(id, sl, n, s.pcs, t, key, ch, sl', n', pc', s.resetUsed);
    assert !s.resetUsed ==> MappedOK(id, sl, n, s.core);
    OneInv(s, r, t, pc', id, sl', n', [], true, Effect(Closes(ch), Leaves));
  }

  lemma PanicSlot(i: nat, sl: Slot, n: Note, pcs: seq<Pc>, t: nat, key: Key, ch: nat, e: Event, err: Option<Failure>,
                  sl': Slot, n': Note, pc': Pc, resetUsed: bool)
    requires SlotOK(i, sl, n, pcs, resetUsed) && t < |pcs| && n.owner == Some(t) && !sl.enforce
    requires (e == WakePanic && pcs[t] == Waking(key, i, ch, sl.value, false)) || (e == SleepPanic && pcs[t] == Sleeping(key, i, ch, false))
    requires sl' == sl.(createErr := err, state := Gone, finished := false)
    requires n' == Logged(Logged(n, e), CloseBegin)
    requires pc' == BareClosing(key, i)
    ensures SlotOK(i, sl', n', pcs[t := pc'], resetUsed)
    ensures GoodMove(t, pcs[t], pc', i, sl, n, sl', n', resetUsed)
  {
    PhaseStep(n.trace, e);
    PhaseStep(n.trace + [e], CloseBegin);
  }

  /** What a goroutine that moves may take from the invariant. */
  lemma Parts(s: System, t: nat, id: nat)
    requires Inv(s) && t < |s.pcs| && id < |s.core.slots|
    ensures SlotsInv(s) && PcOK(s, t, s.pcs[t]) && !s.core.panicked && |s.notes| == |s.core.slots| && |s.closer| == |s.core.closed|
    ensures !s.resetUsed ==> MappedOK(id, s.core.slots[id], s.notes[id], s.core)
  {
    hide SlotOK, Consistent, RefOK, PcOK, ChanOK, ItemOK, MappedOK;
  }

  lemma PanicKeeps(s: System, t: nat, key: Key, id: nat, ch: nat, e: Event, err: Option<Failure>)
    requires Inv(s) && t < |s.pcs| && SlotIn(s, id) && !s.core.slots[id].enforce
    requires (e == WakePanic && s.pcs[t] == Waking(key, id, ch, s.core.slots[id].value, false)) || (e == SleepPanic && s.pcs[t] == Sleeping(key, id, ch, false))
    ensures Inv(EndAfterPanic(s, t, key, id, false, ch, e, err))
  {
    hide SlotOK, GoodMove, Moves, LetsGoOnly, Inv, SlotsInv;
    var r := EndAfterPanic(s, t, key, id, false, ch, e, err);
    Parts(s, t, id);
    var sl, n := s.core.slots[id], s.notes[id];
    var sl' := sl.(createErr := err, state := Gone, finished := false);
    var n' := Logged(Logged(n, e), CloseBegin);
    Settled(s, id);
    PanicSlot(id, sl, n, s.pcs, t, key, ch, e, err, sl', n', BareClosing(key, id), s.resetUsed);
    OneInv(s, r, t, BareClosing(key, id), id, sl', n', [], true, Effect(Closes(ch), Leaves));
  }

  lemma SleepCloseSlot(i: nat, sl: Slot, n: Note, pcs: seq<Pc>, t: nat, key: Key, ch: nat, sl': Slot, n': Note, pc': Pc, resetUsed: bool)
    requires SlotOK(i, sl, n, pcs, resetUsed) && t < |pcs|
    requires pcs[t] == Sleeping(key, i, ch, true) && n.owner == Some(t)
    requires sl' == sl
    requires n' == Logged(Logged(n, SleepEnd), CloseBegin)
    requires pc' == MappedClosing(key, i, ch)
    ensures SlotOK(i, sl', n', pcs[t := pc'], resetUsed)
    ensures GoodMove(t, pcs[t], pc', i, sl, n, sl', n', resetUsed)
  {
    PhaseStep(n.trace, SleepEnd); PhaseStep(n.trace + [SleepEnd], CloseBegin);
  }

  lemma SleepCloseKeeps(s: System, t: nat)
    requires Inv(s) && t < |s.pcs| && s.pcs[t].Sleeping? && SlotIn(s, s.pcs[t].id) && s.pcs[t].enforce && s.core.grace <= 0
    ensures Inv(SleepOkStep(s, t))
  {
    hide SlotOK, GoodMove, Moves, LetsGoOnly, Consistent, RefOK;
    var r := SleepOkStep(s, t);
    var Sleeping(key, id, ch, enforce) := s.pcs[t];
    assert PcOK(s, t, s.pcs[t]);
    var sl, n := s.core.slots[id], s.notes[id];
    var sl' := sl;
    var n' := Logged(Logged(n, SleepEnd), CloseBegin);
    var pc' := MappedClosing(key, id, ch);
    Settled(s, id);
    SleepCloseSlot(id, sl, n, s.pcs, t, key, ch, sl', n', pc', s.resetUsed);
    assert !s.resetUsed ==> MappedOK(id, sl, n, s.core);
    OneInv(s, r, t, pc', id, sl', n', [], false, Effect(Still, Stays));
  }

  lemma SleepArmSlot(i: nat, sl: Slot, n: Note, pcs: seq<Pc>, t: nat, key: Key, ch: nat, sl': Slot, n': Note, pc': Pc, resetUsed: bool)
    requires SlotOK(i, sl, n, pcs, resetUsed) && t < |pcs|
    requires pcs[t].Sleeping? && pcs[t] == Sleeping(key, i, ch, sl.enforce) && n.owner == Some(t)
    requires sl' == sl.(state := Asleep, timer := Some(|pcs|))
    requires n' == Logged(n, SleepEnd).(owner := None, reaper := |pcs|)
    requires pc' == Done
    ensures SlotOK(i, sl', n', pcs[t := pc'] + [Armed(n.key, i)], resetUsed)
    ensures GoodMove(t, pcs[t], pc', i, sl, n, sl', n', resetUsed)
  {
    PhaseStep(n.trace, SleepEnd);
  }

  lemma SleepArmKeeps(s: System, t: nat)
    requires Inv(s) && t < |s.pcs| && s.pcs[t].Sleeping? && SlotIn(s, s.pcs[t].id) && s.core.grace > 0 && Mapped(s.core, s.pcs[t].key, s.pcs[t].id)
    ensures Inv(SleepOkStep(s, t))
  {
    hide SlotOK, GoodMove, Moves, LetsGoOnly, Consistent, RefOK;
    var r := SleepOkStep(s, t);
    var Sleeping(key, id, ch, enforce) := s.pcs[t];
    assert PcOK(s, t, s.pcs[t]);
    var sl, n := s.core.slots[id], s.notes[id];
    var sl' := sl.(state := Asleep, timer := Some(|s.pcs|));
    var n' := Logged(n, SleepEnd).(owner := None, reaper := |s.pcs|);
    var pc' := Done;
    Settled(s, id);
    SleepArmSlot(id, sl, n, s.pcs, t, key, ch, sl', n', pc', s.resetUsed);
    assert !s.resetUsed ==> MappedOK(id, sl, n, s.core);
    OneInv(s, r, t, pc', id, sl', n', [Armed(n.key, id)], false, Effect(Closes(ch), Stays));
  }

  lemma SleepExpireSlot(i: nat, sl: Slot, n: Note, pcs: seq<Pc>, t: nat, key: Key, ch: nat, sl': Slot, n': Note, pc': Pc, resetUsed: bool)
    requires SlotOK(i, sl, n, pcs, resetUsed) && t < |pcs|
    requires pcs[t].Sleeping? && pcs[t] == Sleeping(key, i, ch, sl.enforce) && n.owner == Some(t)
    requires sl' == sl.(state := Asleep)
    requires n' == Logged(n, SleepEnd).(owner := None, reaper := t)
    requires pc' == Expiring(key, i)
    ensures SlotOK(i, sl', n', pcs[t := pc'], resetUsed)
    ensures GoodMove(t, pcs[t], pc', i, sl, n, sl', n', resetUsed)
  {
    PhaseStep(n.trace, SleepEnd);
  }

  lemma SleepExpireKeeps(s: System, t: nat)
    requires Inv(s) && t < |s.pcs| && s.pcs[t].Sleeping? && SlotIn(s, s.pcs[t].id) && !(s.pcs[t].enforce && s.core.grace <= 0) && !(s.core.grace > 0 && Mapped(s.core, s.pcs[t].key, s.pcs[t].id))
    ensures Inv(SleepOkStep(s, t))
  {
    hide SlotOK, GoodMove, Moves, LetsGoOnly, Consistent, RefOK;
    var r := SleepOkStep(s, t);
    var Sleeping(key, id, ch, enforce) := s.pcs[t];
    assert PcOK(s, t, s.pcs[t]);
    var sl, n := s.core.slots[id], s.notes[id];
    var sl' := sl.(state := Asleep);
    var n' := Logged(n, SleepEnd).(owner := None, reaper := t);
    var pc' := Expiring(key, id);
    Settled(s, id);
    SleepExpireSlot(id, sl, n, s.pcs, t, key, ch, sl', n', pc', s.resetUsed);
    assert !s.resetUsed ==> MappedOK(id, sl, n, s.core);
    OneInv(s, r, t, pc', id, sl', n', [], false, Effect(Closes(ch), Leaves));
  }

  lemma MappedClosedSlot(i: nat, sl: Slot, n: Note, pcs: seq<Pc>, t: nat, key: Key, ch: nat, sl': Slot, n': Note, pc': Pc, resetUsed: bool)
    requires SlotOK(i, sl, n, pcs, resetUsed) && t < |pcs|
    requires pcs[t] == MappedClosing(key, i, ch) && n.owner == Some(t)
    requires sl' == sl.(state := Gone, finished := false)
    requires n' == Logged(n, CloseEnd).(owner := None)
    requires pc' == Unparking(ch)
    ensures SlotOK(i, sl', n', pcs[t := pc'], resetUsed)
    ensures GoodMove(t, pcs[t], pc', i, sl, n, sl', n', resetUsed)
  {
    PhaseStep(n.trace, CloseEnd);
  }

  lemma MappedClosedKeeps(s: System, t: nat)
    requires Inv(s) && t < |s.pcs| && s.pcs[t].MappedClosing? && SlotIn(s, s.pcs[t].id)
    ensures Inv(MappedClosedStep(s, t))
  {
    hide SlotOK, GoodMove, Moves, LetsGoOnly, Consistent, RefOK;
    var r := MappedClosedStep(s, t);
    var MappedClosing(key, id, ch) := s.pcs[t];
    assert PcOK(s, t, s.pcs[t]);
    var sl, n := s.core.slots[id], s.notes[id];
    var sl' := sl.(state := Gone, finished := false);
    var n' := Logged(n, CloseEnd).(owner := None);
    var pc' := Unparking(ch);
    Settled(s, id);
    MappedClosedSlot(id, sl, n, s.pcs, t, key, ch, sl', n', pc', s.resetUsed);
    assert !s.resetUsed ==> MappedOK(id, sl, n, s.core);
    OneInv(s, r, t, pc', id, sl', n', [], true, Effect(Still, Leaves));
  }

  lemma BareClosedSlot(i: nat, sl: Slot, n: Note, pcs: seq<Pc>, t: nat, key: Key, sl': Slot, n': Note, pc': Pc, resetUsed: bool)
    requires SlotOK(i, sl, n, pcs, resetUsed) && t < |pcs|
    requires pcs[t] == BareClosing(key, i) && n.owner == Some(t)
    requires sl' == sl
    requires n' == Logged(n, CloseEnd).(owner := None)
    requires pc' == Done
    ensures SlotOK(i, sl', n', pcs[t := pc'], resetUsed)
    ensures GoodMove(t, pcs[t], pc', i, sl, n, sl', n', resetUsed)
  {
    PhaseStep(n.trace, CloseEnd);
  }

  lemma BareClosedKeeps(s: System, t: nat)
    requires Inv(s) && t < |s.pcs| && s.pcs[t].BareClosing? && SlotIn(s, s.pcs[t].id)
    ensures Inv(BareClosedStep(s, t))
  {
    hide SlotOK, GoodMove, Moves, LetsGoOnly, Consistent, RefOK;
    var r := BareClosedStep(s, t);
    var BareClosing(key, id) := s.pcs[t];
    assert PcOK(s, t, s.pcs[t]);
    var sl, n := s.core.slots[id], s.notes[id];
    var sl' := sl;
    var n' := Logged(n, CloseEnd).(owner := None);
    var pc' := Done;
    Settled(s, id);
    BareClosedSlot(id, sl, n, s.pcs, t, key, sl', n', pc', s.resetUsed);
    UnmappedGone(s, id);
    OneInv(s, r, t, pc', id, sl', n', [], true, Effect(Still, Stays));
  }

  /** Until Reset is used, no key maps to a slot that is gone. */
  lemma UnmappedGone(s: System, id: nat)
    requires ItemsInv(s) && id < |s.core.slots| && s.core.slots[id].state == Gone
    ensures !s.resetUsed ==> !Mapped(s.core, s.notes[id].key, id)
  {
    var key := s.notes[id].key;
    if key in s.core.items { assert ItemOK(key, s.core.items[key], s); }
  }

  lemma ExpireEnforceSlot(i: nat, sl: Slot, n: Note, pcs: seq<Pc>, t: nat, key: Key, ch: nat, sl': Slot, n': Note, pc': Pc, resetUsed: bool)
    requires SlotOK(i, sl, n, pcs, resetUsed) && t < |pcs|
    requires pcs[t] == Expiring(key, i) && sl.state == Asleep && sl.enforce && n.key == key
    requires sl' == sl.(state := Busy, ready := ch)
    requires n' == Logged(n, CloseBegin).(owner := Some(t))
    requires pc' == MappedClosing(key, i, ch)
    ensures SlotOK(i, sl', n', pcs[t := pc'], resetUsed)
    ensures GoodMove(t, pcs[t], pc', i, sl, n, sl', n', resetUsed)
  {
    PhaseStep(n.trace, CloseBegin);
  }

  lemma ExpireEnforceKeeps(s: System, t: nat)
    requires Inv(s) && t < |s.pcs| && s.pcs[t].Expiring? && SlotIn(s, s.pcs[t].id) && s.core.slots[s.pcs[t].id].state == Asleep && s.core.slots[s.pcs[t].id].enforce
    ensures Inv(ExpiryStep(s, t))
  {
    hide SlotOK, GoodMove, Moves, LetsGoOnly, Inv, SlotsInv;
    var r := ExpiryStep(s, t);
    var Expiring(key, id) := s.pcs[t];
    Parts(s, t, id);
    var sl, n := s.core.slots[id], s.notes[id];
    var sl' := sl.(state := Busy, ready := |s.core.closed|);
    var n' := Logged(n, CloseBegin).(owner := Some(t));
    var pc' := MappedClosing(key, id, |s.core.closed|);
    Settled(s, id);
    ExpireEnforceSlot(id, sl, n, s.pcs, t, key, |s.core.closed|, sl', n', pc', s.resetUsed);
    OneInv(s, r, t, pc', id, sl', n', [], false, Effect(Opens, Stays));
  }

  lemma ExpireBareSlot(i: nat, sl: Slot, n: Note, pcs: seq<Pc>, t: nat, key: Key, sl': Slot, n': Note, pc': Pc, resetUsed: bool)
    requires SlotOK(i, sl, n, pcs, resetUsed) && t < |pcs|
    requires pcs[t] == Expiring(key, i) && sl.state == Asleep && !sl.enforce && n.key == key
    requires sl' == sl.(state := Gone, finished := false)
    requires n' == Logged(n, CloseBegin).(owner := Some(t))
    requires pc' == BareClosing(key, i)
    ensures SlotOK(i, sl', n', pcs[t := pc'], resetUsed)
    ensures GoodMove(t, pcs[t], pc', i, sl, n, sl', n', resetUsed)
  {
    PhaseStep(n.trace, CloseBegin);
  }

  lemma ExpireBareKeeps(s: System, t: nat)
    requires Inv(s) && t < |s.pcs| && s.pcs[t].Expiring? && SlotIn(s, s.pcs[t].id) && s.core.slots[s.pcs[t].id].state == Asleep && !s.core.slots[s.pcs[t].id].enforce
    ensures Inv(ExpiryStep(s, t))
  {
    hide SlotOK, GoodMove, Moves, LetsGoOnly, Consistent, RefOK;
    var r := ExpiryStep(s, t);
    var Expiring(key, id) := s.pcs[t];
    assert PcOK(s, t, s.pcs[t]);
    var sl, n := s.core.slots[id], s.notes[id];
    var sl' := sl.(state := Gone, finished := false);
    var n' := Logged(n, CloseBegin).(owner := Some(t));
    var pc' := BareClosing(key, id);
    Settled(s, id);
    ExpireBareSlot(id, sl, n, s.pcs, t, key, sl', n', pc', s.resetUsed);
    assert !s.resetUsed ==> MappedOK(id, sl, n, s.core);
    PhaseStep(n.trace, CloseBegin);
    OneInv(s, r, t, pc', id, sl', n', [], false, Effect(Still, Leaves));
  }

  lemma BindSlot(i: nat, sl: Slot, n: Note, pcs: seq<Pc>, t: nat, key: Key, sl': Slot, n': Note, pc': Pc, resetUsed: bool)
    requires SlotOK(i, sl, n, pcs, resetUsed) && sl.state == Awake && n.key == key && t < |pcs| && pcs[t] == Looking(key)
    requires sl' == sl.(holders := sl.holders + 1) && n' == n.(holders := n.holders + {t}) && pc' == Holding(key, i, sl.value)
    ensures SlotOK(i, sl', n', pcs[t := pc'], resetUsed)
    ensures GoodMove(t, pcs[t], pc', i, sl, n, sl', n', resetUsed)
  {
    assert t !in n.holders;
  }

  lemma BindKeeps(s: System, t: nat)
    requires Inv(s) && t < |s.pcs| && s.pcs[t].Looking? && KeyIn(s, s.pcs[t].key) && s.pcs[t].key in s.core.items
    requires s.core.slots[s.core.items[s.pcs[t].key]].state == Awake
    ensures Inv(LookupStep(s, t))
  {
    hide SlotOK, GoodMove, Moves, LetsGoOnly, Consistent, RefOK;
    var r := LookupStep(s, t);
    var key := s.pcs[t].key;
    var id := s.core.items[key];
    assert ItemOK(key, id, s);
    var sl, n := s.core.slots[id], s.notes[id];
    var sl' := sl.(holders := sl.holders + 1);
    var n' := n.(holders := n.holders + {t});
    Settled(s, id);
    BindSlot(id, sl, n, s.pcs, t, key, sl', n', Holding(key, id, sl.value), s.resetUsed);
    OneInv(s, r, t, Holding(key, id, sl.value), id, sl', n', [], false, Effect(Still, Stays));
  }

  lemma ResetAwakeSlot(i: nat, sl: Slot, n: Note, pcs: seq<Pc>, t: nat, todo: set<nat>, sl': Slot, n': Note, pc': Pc)
    requires SlotOK(i, sl, n, pcs, true) && t < |pcs| && sl.state == Awake && pcs[t] == Resetting(todo)
    requires sl' == sl.(state := Gone, finished := false)
    requires n' == Logged(n, SleepBegin).(owner := Some(t))
    requires pc' == ResetSleeping(i, todo - {i})
    ensures SlotOK(i, sl', n', pcs[t := pc'], true)
    ensures GoodMove(t, pcs[t], pc', i, sl, n, sl', n', true)
  {
    PhaseStep(n.trace, SleepBegin);
  }

  lemma ResetAwakeKeeps(s: System, t: nat, id: nat)
    requires Inv(s) && t < |s.pcs| && s.pcs[t].Resetting? && id in s.pcs[t].todo && SlotIn(s, id)
    requires s.core.slots[id].state == Awake
    ensures Inv(ResetNextStep(s, t, id))
  {
    hide SlotOK, GoodMove, Moves, LetsGoOnly, Consistent, RefOK;
    var r := ResetNextStep(s, t, id);
    assert PcOK(s, t, s.pcs[t]);
    var todo := s.pcs[t].todo;
    var sl, n := s.core.slots[id], s.notes[id];
    var sl' := sl.(state := Gone, finished := false);
    var n' := Logged(n, SleepBegin).(owner := Some(t));
    Settled(s, id);
    ResetAwakeSlot(id, sl, n, s.pcs, t, todo, sl', n', ResetSleeping(id, todo - {id}));
    OneInv(s, r, t, ResetSleeping(id, todo - {id}), id, sl', n', [], false, Effect(Still, Stays));
  }

  lemma ResetAsleepSlot(i: nat, sl: Slot, n: Note, pcs: seq<Pc>, t: nat, todo: set<nat>, sl': Slot, n': Note, pc': Pc)
    requires SlotOK(i, sl, n, pcs, true) && t < |pcs| && sl.state == Asleep && pcs[t] == Resetting(todo)
    requires sl' == sl.(state := Gone, finished := false)
    requires n' == Logged(n, CloseBegin).(owner := Some(t))
    requires pc' == ResetClosing(i, todo - {i})
    ensures SlotOK(i, sl', n', pcs[t := pc'], true)
    ensures GoodMove(t, pcs[t], pc', i, sl, n, sl', n', true)
  {
    PhaseStep(n.trace, CloseBegin);
  }

  lemma ResetAsleepKeeps(s: System, t: nat, id: nat)
    requires Inv(s) && t < |s.pcs| && s.pcs[t].Resetting? && id in s.pcs[t].todo && SlotIn(s, id)
    requires s.core.slots[id].state == Asleep
    ensures Inv(ResetNextStep(s, t, id))
  {
    hide SlotOK, GoodMove, Moves, LetsGoOnly, Consistent, RefOK;
    var r := ResetNextStep(s, t, id);
    assert PcOK(s, t, s.pcs[t]);
    var todo := s.pcs[t].todo;
    var sl, n := s.core.slots[id], s.notes[id];
    var sl' := sl.(state := Gone, finished := false);
    var n' := Logged(n, CloseBegin).(owner := Some(t));
    Settled(s, id);
    ResetAsleepSlot(id, sl, n, s.pcs, t, todo, sl', n', ResetClosing(id, todo - {id}));
    OneInv(s, r, t, ResetClosing(id, todo - {id}), id, sl', n', [], false, Effect(Still, Stays));
  }

  lemma ResetSleptSlot(i: nat, sl: Slot, n: Note, pcs: seq<Pc>, t: nat, todo: set<nat>, e: Event, n': Note, pc': Pc)
    requires SlotOK(i, sl, n, pcs, true) && t < |pcs| && n.owner == Some(t) && pcs[t] == ResetSleeping(i, todo)
    requires e == SleepEnd || e == SleepPanic
    requires n' == Logged(Logged(n, e), CloseBegin) && pc' == ResetClosing(i, todo)
    ensures SlotOK(i, sl, n', pcs[t := pc'], true)
    ensures GoodMove(t, pcs[t], pc', i, sl, n, sl, n', true)
  {
    PhaseStep(n.trace, e);
    PhaseStep(n.trace + [e], CloseBegin);
  }

  lemma ResetSleptKeeps(s: System, t: nat, panics: bool)
    requires Inv(s) && t < |s.pcs| && s.pcs[t].ResetSleeping? && SlotIn(s, s.pcs[t].id)
    ensures Inv(ResetSleptStep(s, t, panics))
  {
    hide SlotOK, GoodMove, Moves, LetsGoOnly, Consistent, RefOK;
    var r := ResetSleptStep(s, t, panics);
    assert PcOK(s, t, s.pcs[t]);
    var ResetSleeping(id, todo) := s.pcs[t];
    var sl, n := s.core.slots[id], s.notes[id];
    var e := if panics then SleepPanic else SleepEnd;
    var n' := Logged(Logged(n, e), CloseBegin);
    Settled(s, id);
    ResetSleptSlot(id, sl, n, s.pcs, t, todo, e, n', ResetClosing(id, todo));
    OneInv(s, r, t, ResetClosing(id, todo), id, sl, n', [], false, Effect(Still, Stays));
  }

  lemma ResetClosedSlot(i: nat, sl: Slot, n: Note, pcs: seq<Pc>, t: nat, todo: set<nat>, n': Note, pc': Pc)
    requires SlotOK(i, sl, n, pcs, true) && t < |pcs| && n.owner == Some(t) && pcs[t] == ResetClosing(i, todo)
    requires n' == Logged(n, CloseEnd).(owner := None) && pc' == Resetting(todo)
    ensures SlotOK(i, sl, n', pcs[t := pc'], true)
    ensures GoodMove(t, pcs[t], pc', i, sl, n, sl, n', true)
  {
    PhaseStep(n.trace, CloseEnd);
  }

  lemma ResetClosedKeeps(s: System, t: nat)
    requires Inv(s) && t < |s.pcs| && s.pcs[t].ResetClosing? && SlotIn(s, s.pcs[t].id)
    ensures Inv(ResetClosedStep(s, t))
  {
    hide SlotOK, GoodMove, Moves, LetsGoOnly, Consistent, RefOK;
    var r := ResetClosedStep(s, t);
    assert PcOK(s, t, s.pcs[t]);
    var ResetClosing(id, todo) := s.pcs[t];
    var sl, n := s.core.slots[id], s.notes[id];
    var n' := Logged(n, CloseEnd).(owner := None);
    Settled(s, id);
    ResetClosedSlot(id, sl, n, s.pcs, t, todo, n', Resetting(todo));
    OneInv(s, r, t, Resetting(todo), id, sl, n', [], false, Effect(Still, Stays));
  }
}
