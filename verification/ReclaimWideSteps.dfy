/** The actions of the reclaim table that do not fit the one-slot pattern: those that move only a
    program counter, create a slot, stop a timer, work behind a closer, or reset the table. */
module ReclaimWideSteps {
  import opened Basics
  import opened AliasLinks
  import opened ReclaimCore
  import opened ReclaimSystem
  import opened ReclaimInvariant
  import opened ReclaimFrame
  import opened ReclaimSteps

  // ---------------------------------------------------------------- only a program counter

  lemma SpawnKeeps(s: System, r: System, key: Key)
    requires Inv(s) && r == s.(pcs := s.pcs + [Looking(key)])
    ensures Inv(r)
  {
    hide SlotOK, Consistent, RefOK;
    assert Framed(s, r, {}, {});
    KeepSlots(s, r, {}, {});
    KeepPcs(s, r, {}, {});
    KeepChans(s, r, {}, {});
    KeepItems(s, r, {}, {});
    KeepLinks(s, r, {}, {});
  }

  lemma ParkKeeps(s: System, t: nat)
    requires Inv(s) && t < |s.pcs| && s.pcs[t].Looking? && KeyIn(s, s.pcs[t].key) && s.pcs[t].key in s.core.items
    requires s.core.slots[s.core.items[s.pcs[t].key]].state == Busy
    ensures Inv(LookupStep(s, t))
  {
    hide SlotOK, Consistent, RefOK;
    var id := s.core.items[s.pcs[t].key];
    OnlyPc(s, LookupStep(s, t), t, Parked(s.pcs[t].key, id, s.core.slots[id].ready));
  }

  lemma ReplayKeeps(s: System, t: nat)
    requires Inv(s) && t < |s.pcs| && s.pcs[t].Parked? && SlotIn(s, s.pcs[t].id) && IsClosed(s, s.pcs[t].ch)
    ensures Inv(ReplayStep(s, t))
  {
    hide SlotOK, Consistent, RefOK;
    OnlyPc(s, ReplayStep(s, t), t, ReplayStep(s, t).pcs[t]);
  }

  lemma ForsakeKeeps(s: System, t: nat)
    requires Inv(s) && t < |s.pcs| && s.pcs[t].Holding? && SlotIn(s, s.pcs[t].id) && !s.core.slots[s.pcs[t].id].finished
    ensures Inv(ForsakeStep(s, t))
  {
    hide Consistent, RefOK;
    assert PcOK(s, t, s.pcs[t]);
    assert SlotOK(s.pcs[t].id, s.core.slots[s.pcs[t].id], s.notes[s.pcs[t].id], s.pcs, s.resetUsed);
    OnlyPc(s, ForsakeStep(s, t), t, Done);
  }

  lemma ClaimStopKeeps(s: System, t: nat)
    requires Inv(s) && t < |s.pcs| && s.pcs[t].Dropping? && SlotIn(s, s.pcs[t].id)
    requires !(s.core.slots[s.pcs[t].id].state == Awake && s.core.slots[s.pcs[t].id].holders == 0)
    ensures Inv(ClaimStep(s, t))
  {
    hide SlotOK, InTransition, Consistent, RefOK;
    assert PcOK(s, t, s.pcs[t]);
    Settled(s, s.pcs[t].id);
    OnlyPc(s, ClaimStep(s, t), t, ClaimStep(s, t).pcs[t]);
  }

  lemma UnparkKeeps(s: System, t: nat)
    requires Inv(s) && t < |s.pcs| && s.pcs[t].DropParked? && IsClosed(s, s.pcs[t].ch)
    ensures Inv(UnparkStep(s, t))
  {
    hide SlotOK, Consistent, RefOK;
    assert PcOK(s, t, s.pcs[t]);
    OnlyPc(s, UnparkStep(s, t), t, Dropping(s.pcs[t].key, s.pcs[t].id));
  }

  lemma FireKeeps(s: System, t: nat)
    requires Inv(s) && t < |s.pcs| && s.pcs[t].Armed?
    ensures Inv(FireStep(s, t))
  {
    hide SlotOK, Consistent, RefOK;
    var pc := Expiring(s.pcs[t].key, s.pcs[t].id);
    assert PcOK(s, t, s.pcs[t]);
    assert Mentions(pc) == Mentions(s.pcs[t]);
    assert PcOK(s, t, pc);
    OnlyPc(s, FireStep(s, t), t, pc);
  }

  lemma ExpireSkipKeeps(s: System, t: nat)
    requires Inv(s) && t < |s.pcs| && s.pcs[t].Expiring? && SlotIn(s, s.pcs[t].id)
    requires s.core.slots[s.pcs[t].id].state != Asleep
    ensures Inv(ExpiryStep(s, t))
  {
    hide SlotOK, Consistent, RefOK;
    OnlyPc(s, ExpiryStep(s, t), t, Done);
  }

  lemma ResetSkipKeeps(s: System, t: nat, id: nat)
    requires Inv(s) && t < |s.pcs| && s.pcs[t].Resetting? && id in s.pcs[t].todo && SlotIn(s, id)
    requires s.core.slots[id].state == Busy || s.core.slots[id].state == Gone
    ensures Inv(ResetNextStep(s, t, id))
  {
    hide SlotOK, Consistent, RefOK;
    assert PcOK(s, t, s.pcs[t]);
    OnlyPc(s, ResetNextStep(s, t, id), t, Resetting(s.pcs[t].todo - {id}));
  }

  lemma CloseReadyKeeps(s: System, t: nat)
    requires Inv(s) && t < |s.pcs| && s.pcs[t].Unparking? && s.pcs[t].ch < |s.core.closed|
    ensures Inv(CloseReadyStep(s, t))
  {
    hide SlotOK, Consistent, RefOK;
    var r := CloseReadyStep(s, t);
    assert PcOK(s, t, s.pcs[t]);
    SlotsIndifferent(s, r, t, Done);
    KeepPcs(s, r, {t}, {});
    KeepChans(s, r, {t}, {});
    KeepItems(s, r, {t}, {});
    KeepLinks(s, r, {t}, {});
  }

  /** A key found mapped to a gone slot, which only a Reset can leave behind. */
  lemma RetryKeeps(s: System, t: nat)
    requires Inv(s) && t < |s.pcs| && s.pcs[t].Looking? && KeyIn(s, s.pcs[t].key) && s.pcs[t].key in s.core.items
    requires s.core.slots[s.core.items[s.pcs[t].key]].state == Gone
    ensures Inv(LookupStep(s, t))
  {
    hide SlotOK, Consistent, RefOK;
    var r := LookupStep(s, t);
    assert ItemOK(s.pcs[t].key, s.core.items[s.pcs[t].key], s);
    KeepSlots(s, r, {}, {});
    KeepPcs(s, r, {}, {});
    KeepChans(s, r, {}, {});
    KeepItems(s, r, {}, {});
    KeepLinks(s, r, {}, {});
  }

  // ---------------------------------------------------------------- a new slot

  /** A new slot, owned by the goroutine that creates the value or closes the old one. */
  lemma FreshSlot(i: nat, sl: Slot, n: Note, pcs: seq<Pc>, t: nat, key: Key, finished: bool, resetUsed: bool)
    requires t < |pcs| && n == Note(key, Some(t), {}, 0, false, [])
    requires sl == Slot(Nil, false, None, Busy, 0, sl.ready, None, finished)
    requires (finished && pcs[t] == Creating(key, i, sl.ready))
          || (pcs[t].Swapped? && pcs[t].key == key && pcs[t].id != i && pcs[t].closer == i && pcs[t].ch == sl.ready)
    ensures SlotOK(i, sl, n, pcs, resetUsed)
  {
  }

  lemma CreateKeeps(s: System, t: nat)
    requires Inv(s) && t < |s.pcs| && s.pcs[t].Looking? && s.pcs[t].key !in s.core.items
    ensures Inv(LookupStep(s, t))
  {
    hide SlotOK, Consistent, RefOK;
    var r := LookupStep(s, t);
    var i := |s.core.slots|;
    assert Framed(s, r, {t}, {});
    FreshSlot(i, r.core.slots[i], r.notes[i], r.pcs, t, s.pcs[t].key, true, s.resetUsed);
    KeepSlots(s, r, {t}, {});
    KeepPcs(s, r, {t}, {});
    KeepChans(s, r, {t}, {});
    KeepItems(s, r, {t}, {});
    KeepLinks(s, r, {t}, {});
  }

  // ---------------------------------------------------------------- waking stops the timer

  lemma WakeSlot(i: nat, sl: Slot, n: Note, pcs: seq<Pc>, t: nat, key: Key, ch: nat, sl': Slot, n': Note, pc': Pc, resetUsed: bool)
    requires SlotOK(i, sl, n, pcs, resetUsed) && sl.state == Asleep && n.key == key && t < |pcs| && pcs[t] == Looking(key)
    requires sl' == sl.(state := Busy, ready := ch, timer := None, holders := sl.holders + 1)
    requires n' == Logged(n, WakeBegin).(owner := Some(t), holders := n.holders + {t})
    requires pc' == Waking(key, i, ch, sl.value, sl.enforce)
    ensures SlotOK(i, sl', n', pcs[t := pc'], resetUsed)
    ensures GoodMove(t, pcs[t], pc', i, sl, n, sl', n', resetUsed)
  {
    PhaseStep(n.trace, WakeBegin);
    assert n'.holders == {t};
  }

  /** The wake step as it would be had the timer not been stopped. */
  lemma WakeUnstopped(s: System, t: nat, key: Key, id: nat, s1: System)
    requires Inv(s) && t < |s.pcs| && s.pcs[t] == Looking(key) && Mapped(s.core, key, id) && SlotIn(s, id)
    requires s.core.slots[id].state == Asleep
    requires var sl, n := s.core.slots[id], s.notes[id];
             s1 == s.(core := WithSlot(s.core, id, sl.(state := Busy, ready := |s.core.closed|, timer := None, holders := sl.holders + 1))
                                .(closed := s.core.closed + [false]),
                      pcs := s.pcs[t := Waking(key, id, |s.core.closed|, sl.value, sl.enforce)],
                      notes := s.notes[id := Logged(n, WakeBegin).(owner := Some(t), holders := n.holders + {t})],
                      closer := s.closer + [t])
    ensures Inv(s1)
  {
    hide SlotOK, GoodMove, Moves, LetsGoOnly, Consistent, RefOK;
    assert ItemOK(key, id, s);
    var sl, n := s.core.slots[id], s.notes[id];
    var sl' := sl.(state := Busy, ready := |s.core.closed|, timer := None, holders := sl.holders + 1);
    var n' := Logged(n, WakeBegin).(owner := Some(t), holders := n.holders + {t});
    var pc' := Waking(key, id, |s.core.closed|, sl.value, sl.enforce);
    Settled(s, id);
    WakeSlot(id, sl, n, s.pcs, t, key, |s.core.closed|, sl', n', pc', s.resetUsed);
    OneInv(s, s1, t, pc', id, sl', n', [], false, Effect(Opens, Stays));
  }

  /** Stopping an armed timer of a slot that is not asleep. */
  lemma StopKeeps(s: System, r: System, u: nat, id: nat)
    requires Inv(s) && u < |s.pcs| && s.pcs[u].Armed? && s.pcs[u].id == id && SlotIn(s, id) && s.core.slots[id].state != Asleep
    requires r == s.(pcs := s.pcs[u := Done])
    ensures Inv(r)
  {
    hide SlotOK, Consistent, RefOK;
    OnlyPc(s, r, u, Done);
  }

  lemma WakeKeeps(s: System, t: nat)
    requires Inv(s) && t < |s.pcs| && s.pcs[t].Looking? && KeyIn(s, s.pcs[t].key) && s.pcs[t].key in s.core.items
    requires s.core.slots[s.core.items[s.pcs[t].key]].state == Asleep
    ensures Inv(LookupStep(s, t))
  {
    hide SlotOK, PcOK, InTransition, Consistent, RefOK;
    var r := LookupStep(s, t);
    var key := s.pcs[t].key;
    var id := s.core.items[key];
    var sl := s.core.slots[id];
    Settled(s, id);
    var s1 := r.(pcs := s.pcs[t := Waking(key, id, |s.core.closed|, sl.value, sl.enforce)]);
    WakeUnstopped(s, t, key, id, s1);
    if sl.timer.Some? && s.pcs[sl.timer.value].Armed? {
      assert r.pcs == s1.pcs[sl.timer.value := Done];
      StopKeeps(s1, r, sl.timer.value, id);
    } else {
      assert r.pcs == s1.pcs;
    }
  }

  // ---------------------------------------------------------------- closing behind a closer

  lemma SwapSlot(i: nat, sl: Slot, n: Note, pcs: seq<Pc>, t: nat, key: Key, ch: nat, e: Event, err: Option<Failure>,
                 sl': Slot, n': Note, pc': Pc, resetUsed: bool)
    requires SlotOK(i, sl, n, pcs, resetUsed) && t < |pcs| && n.owner == Some(t) && sl.enforce
    requires (e == WakePanic && pcs[t] == Waking(key, i, ch, sl.value, true)) || (e == SleepPanic && pcs[t] == Sleeping(key, i, ch, true))
    requires sl' == sl.(createErr := err, state := Gone, finished := false)
    requires n' == Logged(n, e)
    requires pc'.Swapped? && pc'.key == key && pc'.id == i && pc'.closer != i && pc'.oldReady == ch
    ensures SlotOK(i, sl', n', pcs[t := pc'], resetUsed)
    ensures Moves({t}, sl, n, sl', n', resetUsed)
  {
    PhaseStep(n.trace, e);
  }

  /** The shape of installCloser: slot id becomes (sl', n') and a closer takes the key. */
  ghost predicate Swaps(s: System, r: System, t: nat, key: Key, id: nat, ch: nat, sl': Slot, n': Note) {
    var c, d := |s.core.slots|, |s.core.closed|;
    && t < |s.pcs| && id < |s.core.slots| && id < |s.notes|
    && r == System(Core(s.core.grace, s.core.items[key := c],
                        s.core.slots[id := sl'] + [Slot(Nil, false, None, Busy, 0, d, None, false)],
                        s.core.closed + [false], s.core.panicked, Unbind(s.core.links, id)),
                   s.pcs[t := Swapped(key, id, ch, c, d)],
                   s.notes[id := n'] + [Note(key, Some(t), {}, 0, false, [])], s.closer + [t], s.resetUsed)
    && (s.pcs[t].Waking? || s.pcs[t].Sleeping?) && s.pcs[t].id == id && s.pcs[t].ch == ch
    && sl'.state == Gone && sl'.ready == s.core.slots[id].ready && n'.key == key == s.notes[id].key && n'.owner == Some(t)
    && SlotOK(id, sl', n', r.pcs, s.resetUsed)
    && Moves({t}, s.core.slots[id], s.notes[id], sl', n', s.resetUsed)
  }

  lemma SwapFramed(s: System, r: System, t: nat, key: Key, id: nat, ch: nat, sl': Slot, n': Note)
    requires |s.notes| == |s.core.slots| && ChansInv(s) && Swaps(s, r, t, key, id, ch, sl', n')
    ensures Framed(s, r, {t}, {id})
  {
    hide SlotOK, Moves;
  }

  lemma SwapSlots(s: System, r: System, t: nat, key: Key, id: nat, ch: nat, sl': Slot, n': Note)
    requires SlotsInv(s) && Swaps(s, r, t, key, id, ch, sl', n') && Framed(s, r, {t}, {id})
    ensures SlotsInv(r)
  {
    hide SlotOK, Moves;
    var c := |s.core.slots|;
    FreshSlot(c, r.core.slots[c], r.notes[c], r.pcs, t, key, false, s.resetUsed);
    KeepSlots(s, r, {t}, {id});
  }

  lemma SwapPcs(s: System, r: System, t: nat, key: Key, id: nat, ch: nat, sl': Slot, n': Note)
    requires PcsInv(s) && ChansInv(s) && Swaps(s, r, t, key, id, ch, sl', n') && Framed(s, r, {t}, {id})
    ensures PcsInv(r) && ChansInv(r)
  {
    hide SlotOK, Moves;
    assert PcOK(s, t, s.pcs[t]);
    assert ch in MustClose(s.pcs[t]);
    assert PcOK(r, t, r.pcs[t]);
    KeepPcs(s, r, {t}, {id});
    KeepChans(s, r, {t}, {id});
  }

  lemma SwapItems(s: System, r: System, t: nat, key: Key, id: nat, ch: nat, sl': Slot, n': Note)
    requires ItemsInv(s) && Swaps(s, r, t, key, id, ch, sl', n') && Framed(s, r, {t}, {id})
    requires !s.resetUsed ==> Mapped(s.core, key, id)
    ensures ItemsInv(r)
  {
    hide SlotOK, Moves;
    forall k | k in s.core.items ensures ItemOK(k, s.core.items[k], s) { }
    KeepItems(s, r, {t}, {id});
  }

  lemma SwapKeeps(s: System, t: nat, key: Key, id: nat, ch: nat, e: Event, err: Option<Failure>)
    requires Inv(s) && t < |s.pcs| && SlotIn(s, id) && s.core.slots[id].enforce
    requires (e == WakePanic && s.pcs[t] == Waking(key, id, ch, s.core.slots[id].value, true)) || (e == SleepPanic && s.pcs[t] == Sleeping(key, id, ch, true))
    ensures Inv(EndAfterPanic(s, t, key, id, true, ch, e, err))
  {
    hide SlotOK, Moves, Consistent, RefOK;
    var r := EndAfterPanic(s, t, key, id, true, ch, e, err);
    assert PcOK(s, t, s.pcs[t]);
    Settled(s, id);
    assert !s.resetUsed ==> MappedOK(id, s.core.slots[id], s.notes[id], s.core);
    var sl' := s.core.slots[id].(createErr := err, state := Gone, finished := false);
    var n' := Logged(s.notes[id], e);
    SwapSlot(id, s.core.slots[id], s.notes[id], s.pcs, t, key, ch, e, err, sl', n', r.pcs[t], s.resetUsed);
    SwapFramed(s, r, t, key, id, ch, sl', n');
    SwapSlots(s, r, t, key, id, ch, sl', n');
    SwapPcs(s, r, t, key, id, ch, sl', n');
    SwapItems(s, r, t, key, id, ch, sl', n');
    KeepLinksUnbound(s, r, {t}, {id}, id);
  }

  /** The incarnation behind a closer starts, then finishes, its Close. */
  lemma BehindSlot(i: nat, sl: Slot, n: Note, pcs: seq<Pc>, t: nat, e: Event, n': Note, pc': Pc, resetUsed: bool)
    requires SlotOK(i, sl, n, pcs, resetUsed) && t < |pcs| && n.owner == Some(t)
    requires if e == CloseBegin
             then pcs[t].Swapped? && pcs[t].id == i && n' == Logged(n, e) && pc' == CloserClosing(pcs[t].key, i, pcs[t].closer, pcs[t].ch)
             else e == CloseEnd && pcs[t].CloserClosing? && pcs[t].id == i && n' == Logged(n, e).(owner := None) && pc' == Unparking(pcs[t].ch)
    ensures SlotOK(i, sl, n', pcs[t := pc'], resetUsed) && Moves({t}, sl, n, sl, n', resetUsed) && n'.key == n.key
    ensures sl.state == Gone && n'.put && sl.enforce
  {
    PhaseStep(n.trace, e);
  }

  /** The closer waits while Close starts and is gone once it is finished. */
  lemma CloserSlot(i: nat, sl: Slot, n: Note, pcs: seq<Pc>, t: nat, ends: bool, sl': Slot, n': Note, pc': Pc, resetUsed: bool)
    requires SlotOK(i, sl, n, pcs, resetUsed) && t < |pcs| && n.owner == Some(t)
    requires if ends
             then pcs[t].CloserClosing? && pcs[t].closer == i && sl' == sl.(state := Gone, finished := false)
                  && n' == n.(owner := None) && pc' == Unparking(pcs[t].ch)
             else pcs[t].Swapped? && pcs[t].closer == i && sl' == sl && n' == n
                  && pc' == CloserClosing(pcs[t].key, pcs[t].id, i, pcs[t].ch)
    ensures SlotOK(i, sl', n', pcs[t := pc'], resetUsed) && Moves({t}, sl, n, sl', n', resetUsed)
    ensures sl.state == Busy && !n.put && pcs[t].id != i && n.key == pcs[t].key
  {
  }

  lemma CloseOldPcs(s: System, r: System, t: nat, id: nat, closer: nat)
    requires PcsInv(s) && ChansInv(s) && Framed(s, r, {t}, {id, closer}) && t < |s.pcs| && s.pcs[t].Swapped?
    requires s.pcs[t].id == id && s.pcs[t].closer == closer && s.pcs[t].oldReady < |s.core.closed|
    requires id < |s.core.slots| && closer < |s.core.slots|
    requires r.core.closed == CloseChan(s.core, s.pcs[t].oldReady).closed && r.core.panicked == CloseChan(s.core, s.pcs[t].oldReady).panicked
    requires r.pcs == s.pcs[t := CloserClosing(s.pcs[t].key, id, closer, s.pcs[t].ch)]
    requires r.notes[id].owner == Some(t) && r.notes[closer].owner == Some(t)
    requires Moves({t}, s.core.slots[id], s.notes[id], r.core.slots[id], r.notes[id], s.resetUsed)
    requires Moves({t}, s.core.slots[closer], s.notes[closer], r.core.slots[closer], r.notes[closer], s.resetUsed)
    ensures PcsInv(r) && ChansInv(r)
  {
    hide Moves;
    assert PcOK(s, t, s.pcs[t]);
    assert s.pcs[t].oldReady in MustClose(s.pcs[t]);
    assert PcOK(r, t, r.pcs[t]);
    KeepPcs(s, r, {t}, {id, closer});
    KeepChans(s, r, {t}, {id, closer});
  }

  lemma CloseOldKeeps(s: System, t: nat)
    requires Inv(s) && t < |s.pcs| && s.pcs[t].Swapped? && SlotIn(s, s.pcs[t].id) && s.pcs[t].oldReady < |s.core.closed|
    ensures Inv(CloseOldStep(s, t))
  {
    hide SlotOK, Moves, Consistent, RefOK;
    var r := CloseOldStep(s, t);
    var Swapped(key, id, oldReady, closer, ch) := s.pcs[t];
    assert PcOK(s, t, s.pcs[t]);
    assert closer in Mentions(s.pcs[t]);
    BehindSlot(id, s.core.slots[id], s.notes[id], s.pcs, t, CloseBegin, r.notes[id], r.pcs[t], s.resetUsed);
    CloserSlot(closer, s.core.slots[closer], s.notes[closer], s.pcs, t, false, s.core.slots[closer], s.notes[closer], r.pcs[t], s.resetUsed);
    assert Framed(s, r, {t}, {id, closer});
    KeepSlots(s, r, {t}, {id, closer});
    CloseOldPcs(s, r, t, id, closer);
    CloseOldRest(s, r, t, id, closer);
  }

  lemma CloseOldRest(s: System, r: System, t: nat, id: nat, closer: nat)
    requires ItemsInv(s) && LinksInv(s) && Framed(s, r, {t}, {id, closer})
    requires r.core.items == s.core.items && r.core.links == s.core.links && r.core.grace == s.core.grace && r.core.slots == s.core.slots
    requires id < |s.core.slots| && closer < |s.core.slots| && r.notes[closer] == s.notes[closer] && r.notes[id].key == s.notes[id].key
    requires !s.notes[closer].put && s.core.slots[id].state == Gone && s.core.slots[id].enforce && r.notes[id].put
    ensures ItemsInv(r) && LinksInv(r)
  {
    hide Consistent;
    forall k | k in s.core.items ensures ItemOK(k, s.core.items[k], s) { }
    assert !s.resetUsed ==> MappedOK(closer, s.core.slots[closer], s.notes[closer], s.core);
    KeepItems(s, r, {t}, {id, closer});
    forall e | 0 <= e < |r.core.links.entries| ensures RefOK(r.core.links.entries[e].incarnation, r) {
      assert RefOK(s.core.links.entries[e].incarnation, s);
    }
  }

  lemma CloserClosedSlots(s: System, r: System, t: nat, id: nat, closer: nat, sl: Slot, n: Note, sl': Slot, n': Note)
    requires SlotsInv(s) && t < |s.pcs| && s.pcs[t].CloserClosing? && s.pcs[t].id == id && s.pcs[t].closer == closer
    requires id < |s.core.slots| && closer < |s.core.slots| && id != closer && |s.closer| == |s.core.closed|
    requires r.pcs == s.pcs[t := Unparking(s.pcs[t].ch)] && r.core.slots == s.core.slots[id := sl][closer := sl']
    requires r.notes == s.notes[id := n][closer := n'] && r.resetUsed == s.resetUsed
    requires r.core.closed == s.core.closed && r.closer == s.closer
    requires sl.ready < |s.core.closed| && sl'.ready < |s.core.closed|
    requires SlotOK(id, sl, n, r.pcs, s.resetUsed) && SlotOK(closer, sl', n', r.pcs, s.resetUsed)
    ensures SlotsInv(r) && Framed(s, r, {t}, {id, closer})
  {
    hide SlotOK;
    KeepSlots(s, r, {t}, {id, closer});
  }

  lemma CloserClosedPcs(s: System, r: System, t: nat, id: nat, closer: nat)
    requires PcsInv(s) && ChansInv(s) && Framed(s, r, {t}, {id, closer}) && t < |s.pcs| && s.pcs[t].CloserClosing?
    requires s.pcs[t].id == id && s.pcs[t].closer == closer && id < |s.core.slots| && closer < |s.core.slots|
    requires r.core.closed == s.core.closed && r.closer == s.closer && r.core.panicked == s.core.panicked
    requires r.pcs == s.pcs[t := Unparking(s.pcs[t].ch)]
    requires Moves({t}, s.core.slots[id], s.notes[id], r.core.slots[id], r.notes[id], s.resetUsed)
    requires Moves({t}, s.core.slots[closer], s.notes[closer], r.core.slots[closer], r.notes[closer], s.resetUsed)
    ensures PcsInv(r) && ChansInv(r)
  {
    hide Moves;
    assert PcOK(s, t, s.pcs[t]);
    assert s.pcs[t].ch in MustClose(s.pcs[t]);
    assert PcOK(r, t, r.pcs[t]);
    KeepPcs(s, r, {t}, {id, closer});
    KeepChans(s, r, {t}, {id, closer});
  }

  lemma CloserClosedItems(s: System, r: System, t: nat, id: nat, closer: nat, key: Key)
    requires ItemsInv(s) && Framed(s, r, {t}, {id, closer}) && r.core.grace == s.core.grace
    requires id != closer && id < |s.core.slots| && closer < |s.core.slots| == |r.core.slots|
    requires r.core.items == if Mapped(s.core, key, closer) then s.core.items - {key} else s.core.items
    requires s.core.slots[id].state == Gone && r.core.slots[id] == s.core.slots[id] && r.core.slots[closer].state == Gone
    requires r.notes[id].key == s.notes[id].key && s.notes[closer].key == key && r.notes[closer].key == key
    ensures ItemsInv(r)
  {
    forall k | k in s.core.items ensures ItemOK(k, s.core.items[k], s) { }
    assert !s.resetUsed ==> MappedOK(closer, s.core.slots[closer], s.notes[closer], s.core);
    KeepItems(s, r, {t}, {id, closer});
  }

  /** By the time Close has returned, no alias points at the incarnation: they all ended when the
      closer was installed. */
  lemma CloserClosedLinks(s: System, r: System, t: nat, id: nat, closer: nat)
    requires LinksInv(s) && Framed(s, r, {t}, {id, closer}) && r.core.links == Unbind(s.core.links, closer)
    requires id < |s.core.slots| && closer < |s.core.slots| && r.core.slots[id] == s.core.slots[id]
    requires s.core.slots[id].state == Gone && s.core.slots[id].enforce && r.notes[id].put && s.notes[id].put
    ensures LinksInv(r)
  {
    UnbindKeeps(s.core.links, closer);
    forall e | 0 <= e < |r.core.links.entries| ensures RefOK(r.core.links.entries[e].incarnation, r) {
      assert RefOK(s.core.links.entries[e].incarnation, s);
    }
  }

  lemma CloserClosedKeeps(s: System, t: nat)
    requires Inv(s) && t < |s.pcs| && s.pcs[t].CloserClosing? && SlotIn(s, s.pcs[t].id) && SlotIn(s, s.pcs[t].closer)
    ensures Inv(CloserClosedStep(s, t))
  {
    hide SlotOK, Moves, Framed, MappedOK, ItemOK, ChanOK, Consistent, RefOK, Unbind;
    var r := CloserClosedStep(s, t);
    var CloserClosing(key, id, closer, ch) := s.pcs[t];
    assert PcOK(s, t, s.pcs[t]);
    var sl', n' := s.core.slots[closer].(state := Gone, finished := false), s.notes[closer].(owner := None);
    CloserSlot(closer, s.core.slots[closer], s.notes[closer], s.pcs, t, true, sl', n', r.pcs[t], s.resetUsed);
    BehindSlot(id, s.core.slots[id], s.notes[id], s.pcs, t, CloseEnd, r.notes[id], r.pcs[t], s.resetUsed);
    CloserClosedSlots(s, r, t, id, closer, s.core.slots[id], r.notes[id], sl', n');
    CloserClosedPcs(s, r, t, id, closer);
    CloserClosedItems(s, r, t, id, closer, key);
    CloserClosedLinks(s, r, t, id, closer);
  }

  // ---------------------------------------------------------------- Reset

  lemma {:induction false} UnbindAllKeeps(l: Links, ids: seq<nat>)
    requires Consistent(l)
    ensures Consistent(UnbindAll(l, ids)) && (AllAgree(l) ==> AllAgree(UnbindAll(l, ids)))
    ensures |UnbindAll(l, ids).entries| == |l.entries|
    ensures forall e :: 0 <= e < |l.entries| ==>
              UnbindAll(l, ids).entries[e].incarnation.None? || UnbindAll(l, ids).entries[e].incarnation == l.entries[e].incarnation
  {
    if ids != [] {
      UnbindAllKeeps(l, ids[..|ids| - 1]);
      UnbindKeeps(UnbindAll(l, ids[..|ids| - 1]), ids[|ids| - 1]);
    }
  }

  /** Reset forgets every name; the entries themselves keep their links. */
  lemma ForgetNames(l: Links)
    requires Consistent(l)
    ensures Consistent(l.(aliases := map[])) && (AllAgree(l) ==> AllAgree(l.(aliases := map[])))
  {
    var r := l.(aliases := map[]);
    forall id: nat ensures ListsItsEntries(r, id) { assert ListsItsEntries(l, id); }
  }

  lemma ResetSlot(i: nat, sl: Slot, n: Note, pcs: seq<Pc>, resetUsed: bool, todo: set<nat>, sl': Slot, n': Note, qcs: seq<Pc>)
    requires SlotOK(i, sl, n, pcs, resetUsed)
    requires |qcs| == |pcs| + 1 && qcs[|pcs|] == Resetting(todo)
    requires forall u :: 0 <= u < |pcs| ==> qcs[u] == pcs[u] || (qcs[u] == Done && pcs[u].Armed? && pcs[u].id in todo)
    requires sl' == if i in todo then sl.(timer := None) else sl
    requires n' == if i in todo && sl.state == Asleep then n.(reaper := |pcs|) else n
    ensures SlotOK(i, sl', n', qcs, true)
  {
  }

  lemma ResetSlots(s: System, r: System, order: seq<nat>)
    requires SlotsInv(s) && r == ResetStartStep(s, order)
    ensures SlotsInv(r)
  {
    hide SlotOK;
    forall i | 0 <= i < |s.core.slots| ensures SlotOK(i, r.core.slots[i], r.notes[i], r.pcs, r.resetUsed) {
      ResetSlot(i, s.core.slots[i], s.notes[i], s.pcs, s.resetUsed, s.core.items.Values, r.core.slots[i], r.notes[i], r.pcs);
    }
  }

  /** What a goroutine relies on does not involve timers or reapers. */
  lemma ResetPc(s: System, r: System, u: nat)
    requires |r.core.slots| == |s.core.slots| && |r.notes| == |s.notes| && r.core.closed == s.core.closed && r.closer == s.closer
    requires forall i :: 0 <= i < |s.core.slots| ==> r.core.slots[i] == s.core.slots[i].(timer := r.core.slots[i].timer)
    requires forall i :: 0 <= i < |s.notes| ==> r.notes[i] == s.notes[i].(reaper := r.notes[i].reaper)
    requires r.resetUsed && u < |s.pcs| && u < |r.pcs| && (r.pcs[u] == s.pcs[u] || r.pcs[u] == Done)
    requires PcOK(s, u, s.pcs[u])
    ensures PcOK(r, u, r.pcs[u])
  {
    var pc := r.pcs[u];
    forall i | i in Mentions(pc)
      ensures i < |r.core.slots| && i < |r.notes| && RelyOK(u, pc, i, r.core.slots[i], r.notes[i], r.resetUsed)
    {
      assert RelyOK(u, pc, i, s.core.slots[i], s.notes[i], s.resetUsed);
    }
  }

  lemma ResetTodo(r: System, t: nat, todo: set<nat>)
    requires t < |r.pcs| && r.pcs[t] == Resetting(todo) && r.resetUsed
    requires forall i :: i in todo ==> i < |r.core.slots| && i < |r.notes|
    ensures PcOK(r, t, r.pcs[t])
  {
  }

  lemma ResetPcs(s: System, r: System, order: seq<nat>)
    requires |s.notes| == |s.core.slots| && PcsInv(s) && ItemsInv(s) && r == ResetStartStep(s, order)
    ensures PcsInv(r)
  {
    hide PcOK, UnbindAll;
    forall u | 0 <= u < |s.pcs| ensures PcOK(r, u, r.pcs[u]) { ResetPc(s, r, u); }
    forall i | i in s.core.items.Values ensures i < |s.core.slots| {
      var k :| k in s.core.items && s.core.items[k] == i;
      assert ItemOK(k, i, s);
    }
    ResetTodo(r, |s.pcs|, s.core.items.Values);
  }

  lemma ResetChans(s: System, r: System, order: seq<nat>)
    requires ChansInv(s) && r == ResetStartStep(s, order)
    ensures ChansInv(r)
  {
    forall c | 0 <= c < |r.core.closed| ensures ChanOK(c, r.core.closed[c], r.closer[c], r.pcs) {
      assert ChanOK(c, s.core.closed[c], s.closer[c], s.pcs);
    }
  }

  lemma ResetLinks(s: System, r: System, order: seq<nat>)
    requires SlotsInv(s) && LinksInv(s) && r == ResetStartStep(s, order)
    ensures LinksInv(r)
  {
    hide SlotOK, Consistent;
    UnbindAllKeeps(s.core.links, order);
    ForgetNames(UnbindAll(s.core.links, order));
    forall e | 0 <= e < |r.core.links.entries| ensures RefOK(r.core.links.entries[e].incarnation, r) {
      assert RefOK(s.core.links.entries[e].incarnation, s);
    }
  }

  lemma ResetStartKeeps(s: System, order: seq<nat>)
    requires Inv(s)
    ensures Inv(ResetStartStep(s, order))
  {
    hide SlotOK, PcOK, Consistent, RefOK;
    var r := ResetStartStep(s, order);
    ResetSlots(s, r, order);
    ResetPcs(s, r, order);
    ResetChans(s, r, order);
    ResetLinks(s, r, order);
  }

  // ---------------------------------------------------------------- aliases

  /** An alias operation changes only the links, and points only at the key's current value. */
  lemma AliasKeeps(s: System, r: System)
    requires Inv(s) && r == s.(core := s.core.(links := r.core.links)) && Consistent(r.core.links)
    requires |r.core.links.entries| >= |s.core.links.entries|
    requires forall e :: 0 <= e < |r.core.links.entries| ==>
               var q := r.core.links.entries[e].incarnation;
               q.None? || (e < |s.core.links.entries| && q == s.core.links.entries[e].incarnation) || RefOK(q, s)
    ensures Inv(r)
  {
    hide SlotOK, Consistent;
    KeepSlots(s, r, {}, {});
    KeepPcs(s, r, {}, {});
    KeepChans(s, r, {}, {});
    KeepItems(s, r, {}, {});
    forall e | 0 <= e < |r.core.links.entries| ensures RefOK(r.core.links.entries[e].incarnation, r) {
      if e < |s.core.links.entries| { assert RefOK(s.core.links.entries[e].incarnation, s); }
    }
  }

  /** Alias operations introduce no reference but the one SetAlias was given. */
  ghost predicate PointsNowhereNew(l: Links, r: Links, target: Option<Ref>) {
    |r.entries| >= |l.entries| && forall e :: 0 <= e < |r.entries| ==>
      var q := r.entries[e].incarnation;
      q.None? || (e < |l.entries| && q == l.entries[e].incarnation) || q == target
  }

  lemma WatchPoints(l: Links, alias: Name, empty: Value, wid: nat)
    requires AliasIn(l, alias)
    ensures PointsNowhereNew(l, Watch(l, alias, empty, wid), None)
  {
  }

  lemma DropPoints(l: Links, alias: Name, wid: nat)
    requires AliasIn(l, alias)
    ensures PointsNowhereNew(l, DropWatcher(l, alias, wid), None)
  {
  }

  lemma ClearPoints(l: Links, publisher: string, group: string)
    ensures PointsNowhereNew(l, ClearPublisher(l, publisher, group), None)
  {
  }

  lemma PreparedPoints(l: Links, alias: Name, publisher: string, group: string)
    ensures PointsNowhereNew(l, Prepared(l, alias, publisher, group), None)
  {
    hide HeldBy, KeepOut;
  }

  lemma AttachPoints(l: Links, e: nat, r: Ref)
    requires e < |l.entries|
    ensures PointsNowhereNew(l, Attach(l, e, r), Some(r)) && |Attach(l, e, r).entries| == |l.entries|
  {
  }

  lemma SetAliasPoints(l: Links, target: Option<Ref>, alias: Name, publisher: string, group: string)
    requires Consistent(l)
    ensures AliasIn(l, alias) && PointsNowhereNew(l, SetAlias(l, target, alias, publisher, group).0, target)
  {
    hide TwoWay, AllFaithful, Attach, Prepared, StoreWatchers;
    if SetAlias(l, target, alias, publisher, group).1.Ok? {
      PreparedKeeps(l, alias, publisher, group);
      PreparedPoints(l, alias, publisher, group);
      var w := Prepared(l, alias, publisher, group);
      AttachPoints(w, w.aliases[alias], target.value);
      StorePoints(Attach(w, w.aliases[alias], target.value).entries[w.aliases[alias]].(publisher := publisher, group := group), target.value.value);
    }
  }

  lemma StorePoints(e: Entry, v: Value)
    ensures StoreWatchers(e, v).incarnation == e.incarnation
  {
  }

  lemma SetAliasStepKeeps(s: System, r: System, key: Key, alias: Name, publisher: string, group: string)
    requires Inv(s) && AliasIn(s.core.links, alias)
    requires r == s.(core := s.core.(links := SetAlias(s.core.links, AliasTarget(s.core, key), alias, publisher, group).0))
    ensures Inv(r)
  {
    hide Consistent, PcOK, SetAlias;
    var target := AliasTarget(s.core, key);
    SetAliasKeeps(s.core.links, target, alias, publisher, group);
    SetAliasPoints(s.core.links, target, alias, publisher, group);
    if target.Some? {
      var id := target.value.id;
      assert SlotOK(id, s.core.slots[id], s.notes[id], s.pcs, s.resetUsed);
      assert RefOK(target, s);
    }
    hide SlotOK;
    AliasKeeps(s, r);
  }
}
