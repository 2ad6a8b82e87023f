/** A step changes a few goroutines and a few slots; everything else keeps its part of the
    invariant. */
module ReclaimFrame {
  import opened Basics
  import opened AliasLinks
  import opened ReclaimCore
  import opened ReclaimSystem
  import opened ReclaimInvariant

  /** From s to r only goroutines in `moved` and slots in `touched` change; new goroutines,
      slots and channels may appear. */
  ghost predicate Framed(s: System, r: System, moved: set<nat>, touched: set<nat>) {
    && |s.pcs| <= |r.pcs| && |s.core.slots| <= |r.core.slots| && |s.core.closed| <= |r.core.closed|
    && |s.notes| == |s.core.slots| && |r.notes| == |r.core.slots|
    && |s.closer| == |s.core.closed| && |r.closer| == |r.core.closed|
    && s.resetUsed == r.resetUsed
    && (forall u :: 0 <= u < |s.pcs| && u !in moved ==> r.pcs[u] == s.pcs[u])
    && (forall i :: 0 <= i < |s.core.slots| && i !in touched ==>
          r.core.slots[i] == s.core.slots[i] && r.notes[i] == s.notes[i])
    && (forall c :: 0 <= c < |s.core.closed| ==> r.closer[c] == s.closer[c])
    && (forall c :: 0 <= c < |s.core.closed| && s.closer[c] !in moved ==> r.core.closed[c] == s.core.closed[c])
  }

  /** A moved goroutine lets go of no slot but the touched ones. */
  ghost predicate LetsGo(s: System, r: System, u: nat, i: nat)
    requires u < |s.pcs| && u < |r.pcs| && i < |s.core.slots|
  {
    && i !in Owns(s.pcs[u]) && CountedOn(s.pcs[u]) != Some(i) && !r.pcs[u].Armed?
    && (forall st :: Reaps(s.pcs, u, i, st) ==> Reaps(r.pcs, u, i, st))
  }

  lemma KeepSlots(s: System, r: System, moved: set<nat>, touched: set<nat>)
    requires SlotsInv(s) && Framed(s, r, moved, touched)
    requires forall u, i :: u in moved && u < |s.pcs| && 0 <= i < |s.core.slots| && i !in touched ==> LetsGo(s, r, u, i)
    requires forall i :: 0 <= i < |r.core.slots| ==> r.core.slots[i].ready < |r.core.closed|
    requires forall i :: 0 <= i < |r.core.slots| && (i in touched || i >= |s.core.slots|) ==>
               SlotOK(i, r.core.slots[i], r.notes[i], r.pcs, r.resetUsed)
    ensures SlotsInv(r)
  {
    forall i | 0 <= i < |s.core.slots| && i !in touched
      ensures SlotOK(i, r.core.slots[i], r.notes[i], r.pcs, r.resetUsed)
    {
      assert SlotOK(i, s.core.slots[i], s.notes[i], s.pcs, s.resetUsed);
    }
  }

  /** How goroutines outside `moved` may see a slot change. */
  ghost predicate Moves(moved: set<nat>, sl: Slot, n: Note, sl': Slot, n': Note, resetUsed: bool) {
    && (n.owner.Some? ==> n.owner.value in moved || n'.owner == n.owner)
    && n'.key == n.key && (n.put ==> n'.put && sl'.value == sl.value)
    && (forall u :: u in n.holders && u !in moved ==> u in n'.holders)
    && (sl.state == Gone ==> sl'.state == Gone)
    && (sl.state == Awake ==> sl'.state == Awake || n.holders <= moved || (sl'.state == Gone && resetUsed))
  }

  lemma RelyKept(u: nat, pc: Pc, i: nat, sl: Slot, n: Note, sl': Slot, n': Note, resetUsed: bool, moved: set<nat>)
    requires RelyOK(u, pc, i, sl, n, resetUsed) && u !in moved && (pc.Holding? ==> pc.id == i)
    requires Moves(moved, sl, n, sl', n', resetUsed)
    ensures RelyOK(u, pc, i, sl', n', resetUsed)
  {
  }

  lemma KeepPcs(s: System, r: System, moved: set<nat>, touched: set<nat>)
    requires PcsInv(s) && Framed(s, r, moved, touched)
    requires forall i :: i in touched && i < |s.core.slots| ==>
               Moves(moved, s.core.slots[i], s.notes[i], r.core.slots[i], r.notes[i], s.resetUsed)
    requires forall u :: 0 <= u < |r.pcs| && (u in moved || u >= |s.pcs|) ==> PcOK(r, u, r.pcs[u])
    ensures PcsInv(r)
  {
    forall u | 0 <= u < |s.pcs| && u !in moved ensures PcOK(r, u, r.pcs[u]) {
      var pc := s.pcs[u];
      assert PcOK(s, u, pc);
      forall i | i in Mentions(pc)
        ensures i < |r.core.slots| && RelyOK(u, pc, i, r.core.slots[i], r.notes[i], r.resetUsed)
      {
        if i in touched {
          RelyKept(u, pc, i, s.core.slots[i], s.notes[i], r.core.slots[i], r.notes[i], s.resetUsed, moved);
        }
      }
    }
  }

  lemma KeepChans(s: System, r: System, moved: set<nat>, touched: set<nat>)
    requires ChansInv(s) && Framed(s, r, moved, touched) && !r.core.panicked
    requires forall c :: 0 <= c < |r.core.closed| && (c >= |s.core.closed| || s.closer[c] in moved) ==>
               ChanOK(c, r.core.closed[c], r.closer[c], r.pcs)
    ensures ChansInv(r)
  {
  }

  lemma KeepItems(s: System, r: System, moved: set<nat>, touched: set<nat>)
    requires ItemsInv(s) && Framed(s, r, moved, touched) && r.core.grace == s.core.grace
    requires forall k :: k in r.core.items ==>
               (k in s.core.items && r.core.items[k] == s.core.items[k] && s.core.items[k] !in touched)
               || ItemOK(k, r.core.items[k], r)
    requires !s.resetUsed ==> forall k :: k in s.core.items && s.core.items[k] !in touched ==>
               k in r.core.items && r.core.items[k] == s.core.items[k]
    requires !s.resetUsed ==> forall i :: 0 <= i < |r.core.slots| && (i in touched || i >= |s.core.slots|) ==>
               MappedOK(i, r.core.slots[i], r.notes[i], r.core)
    ensures ItemsInv(r)
  {
    forall k | k in r.core.items ensures ItemOK(k, r.core.items[k], r) {
      if k in s.core.items { assert ItemOK(k, s.core.items[k], s); }
    }
    if !s.resetUsed {
      forall i | 0 <= i < |s.core.slots| && i !in touched ensures MappedOK(i, r.core.slots[i], r.notes[i], r.core) {
        assert MappedOK(i, s.core.slots[i], s.notes[i], s.core);
      }
    }
  }

  /** What an alias that points at a touched slot may see. */
  ghost predicate RefKept(sl: Slot, n: Note, sl': Slot, n': Note, resetUsed: bool) {
    && (n.put ==> n'.put && sl'.value == sl.value)
    && (n.put && !resetUsed && sl'.state == Gone ==> PhaseOf(n'.trace) == InClose && !sl'.enforce)
  }

  lemma KeepLinks(s: System, r: System, moved: set<nat>, touched: set<nat>)
    requires LinksInv(s) && Framed(s, r, moved, touched) && r.core.links == s.core.links
    requires forall i :: i in touched && i < |s.core.slots| ==>
               RefKept(s.core.slots[i], s.notes[i], r.core.slots[i], r.notes[i], s.resetUsed)
    ensures LinksInv(r)
  {
    forall e | 0 <= e < |r.core.links.entries| ensures RefOK(r.core.links.entries[e].incarnation, r) {
      assert RefOK(s.core.links.entries[e].incarnation, s);
    }
  }

  /** Ending the aliases of one slot. */
  lemma KeepLinksUnbound(s: System, r: System, moved: set<nat>, touched: set<nat>, id: nat)
    requires LinksInv(s) && Framed(s, r, moved, touched) && r.core.links == Unbind(s.core.links, id)
    requires forall i :: i in touched && i < |s.core.slots| && i != id ==>
               RefKept(s.core.slots[i], s.notes[i], r.core.slots[i], r.notes[i], s.resetUsed)
    ensures LinksInv(r)
  {
    UnbindKeeps(s.core.links, id);
    forall e | 0 <= e < |r.core.links.entries| ensures RefOK(r.core.links.entries[e].incarnation, r) {
      assert RefOK(s.core.links.entries[e].incarnation, s);
    }
  }

  function Todo(pc: Pc): set<nat> {
    if pc.Resetting? || pc.ResetSleeping? || pc.ResetClosing? then pc.todo else {}
  }

  /** A goroutine going from `pc` to `pc'` lets go of no slot but `id`. */
  ghost predicate LetsGoOnly(pc: Pc, pc': Pc, id: nat) {
    && Owns(pc) <= {id} && (CountedOn(pc).Some? ==> CountedOn(pc).value == id) && !pc'.Armed?
    && (pc.Dropping? || pc.Armed? || pc.Expiring? ==> pc.id == id)
    && Todo(pc) - {id} <= Todo(pc')
  }

  /** What one step does to the channels, and to the map entry of the slot's key. */
  datatype Effect = Effect(chan: ChanEffect, item: ItemEffect)
  datatype ChanEffect = Still | Opens | Closes(c: nat)
  datatype ItemEffect = Stays | Leaves | Enters

  ghost predicate ChansMoved(s: System, r: System, t: nat, pc': Pc, k: ChanEffect)
    requires t < |s.pcs|
  {
    && !r.core.panicked
    && (match k
        case Still => r.core.closed == s.core.closed && r.closer == s.closer && MustClose(pc') == MustClose(s.pcs[t])
        case Opens => r.core.closed == s.core.closed + [false] && r.closer == s.closer + [t]
                      && MustClose(pc') == MustClose(s.pcs[t]) + {|s.core.closed|}
        case Closes(c) => c in MustClose(s.pcs[t]) && c < |s.core.closed| && r.closer == s.closer
                          && r.core.closed == s.core.closed[c := true] && MustClose(pc') == MustClose(s.pcs[t]) - {c})
  }

  /** The common step: goroutine t moves to pc' and changes slot id only; `born` is a timer it arms. */
  ghost predicate OneStep(s: System, r: System, t: nat, pc': Pc, id: nat, sl: Slot, n: Note, born: seq<Pc>, k: Effect) {
    && t < |s.pcs| && id < |s.core.slots| && id < |s.notes| && r.resetUsed == s.resetUsed
    && r.pcs == s.pcs[t := pc'] + born
    && r.core.slots == s.core.slots[id := sl] && r.notes == s.notes[id := n] && sl.ready < |r.core.closed|
    && ChansMoved(s, r, t, pc', k.chan)
  }

  lemma OneFramed(s: System, r: System, t: nat, pc': Pc, id: nat, sl: Slot, n: Note, born: seq<Pc>, k: Effect)
    requires |s.notes| == |s.core.slots| && |s.closer| == |s.core.closed|
    requires OneStep(s, r, t, pc', id, sl, n, born, k)
    requires PcOK(s, t, s.pcs[t])
    ensures Framed(s, r, {t}, {id})
  {
  }

  lemma OneSlots(s: System, r: System, t: nat, pc': Pc, id: nat, sl: Slot, n: Note, born: seq<Pc>, k: Effect)
    requires SlotsInv(s) && Framed(s, r, {t}, {id}) && OneStep(s, r, t, pc', id, sl, n, born, k)
    requires LetsGoOnly(s.pcs[t], pc', id)
    requires SlotOK(id, sl, n, r.pcs, s.resetUsed)
    ensures SlotsInv(r)
  {
    forall i | 0 <= i < |s.core.slots| && i != id ensures LetsGo(s, r, t, i) {
    }
    KeepSlots(s, r, {t}, {id});
  }

  lemma OnePcs(s: System, r: System, t: nat, pc': Pc, id: nat, sl: Slot, n: Note, born: seq<Pc>, k: Effect)
    requires PcsInv(s) && Framed(s, r, {t}, {id}) && OneStep(s, r, t, pc', id, sl, n, born, k)
    requires PcOK(r, t, pc')
    requires born == [] || (n.put && born == [Armed(n.key, id)])
    requires Moves({t}, s.core.slots[id], s.notes[id], sl, n, s.resetUsed)
    ensures PcsInv(r)
  {
    forall u | |s.pcs| <= u < |r.pcs| ensures PcOK(r, u, r.pcs[u]) {
      assert r.pcs[u] == Armed(n.key, id);
    }
    KeepPcs(s, r, {t}, {id});
  }

  lemma OneChans(s: System, r: System, t: nat, pc': Pc, id: nat, sl: Slot, n: Note, born: seq<Pc>, k: Effect)
    requires ChansInv(s) && Framed(s, r, {t}, {id}) && OneStep(s, r, t, pc', id, sl, n, born, k)
    ensures ChansInv(r)
  {
    KeepChans(s, r, {t}, {id});
  }

  /** How the map changes when slot id becomes (sl, n): not at all, id leaves it, or id enters it. */
  ghost predicate ItemsMoved(s: System, r: System, id: nat, sl: Slot, n: Note, k: ItemEffect) {
    && r.core.grace == s.core.grace
    && (match k
        case Stays => r.core.items == s.core.items
        case Leaves => r.core.items == if Mapped(s.core, n.key, id) then s.core.items - {n.key} else s.core.items
        case Enters => r.core.items == s.core.items[n.key := id] && (!s.resetUsed ==> Mapped(s.core, n.key, id)))
    && (!s.resetUsed && sl.state == Gone ==> k.Leaves? || (k.Stays? && !Mapped(s.core, n.key, id)))
    && (!s.resetUsed ==> MappedOK(id, sl, n, r.core))
  }

  lemma OneItems(s: System, r: System, t: nat, id: nat, sl: Slot, n: Note, k: ItemEffect)
    requires ItemsInv(s) && Framed(s, r, {t}, {id}) && id < |s.core.slots| == |r.core.slots|
    requires r.core.slots[id] == sl && r.notes[id] == n && n.key == s.notes[id].key
    requires ItemsMoved(s, r, id, sl, n, k)
    ensures ItemsInv(r)
  {
    forall key | key in r.core.items
      ensures (key in s.core.items && r.core.items[key] == s.core.items[key] && s.core.items[key] != id)
              || ItemOK(key, r.core.items[key], r)
    {
      if key in s.core.items { assert ItemOK(key, s.core.items[key], s); }
      if r.core.items[key] == id { assert key == n.key; }
    }
    forall key | key in s.core.items && s.core.items[key] != id && !s.resetUsed
      ensures key in r.core.items && r.core.items[key] == s.core.items[key]
    {
      assert ItemOK(key, s.core.items[key], s);
    }
    assert !s.resetUsed ==> MappedOK(id, r.core.slots[id], r.notes[id], r.core);
    KeepItems(s, r, {t}, {id});
  }

  /** What goroutine t does when it goes from pc to pc' while slot id goes from (sl, n) to (sl', n'). */
  ghost predicate GoodMove(t: nat, pc: Pc, pc': Pc, id: nat, sl: Slot, n: Note, sl': Slot, n': Note, resetUsed: bool) {
    && LetsGoOnly(pc, pc', id)
    && Moves({t}, sl, n, sl', n', resetUsed)
    && RelyOK(t, pc', id, sl', n', resetUsed)
    && Owns(pc') <= {id} && Mentions(pc') <= {id} + Todo(pc') && Todo(pc') <= Todo(pc)
    && (pc'.Resetting? || pc'.ResetSleeping? || pc'.ResetClosing? ==> resetUsed)
    && !pc'.Parked? && !pc'.DropParked? && !pc'.Swapped?
  }

  lemma OnePcOK(s: System, r: System, t: nat, pc': Pc, id: nat, sl: Slot, n: Note, born: seq<Pc>, k: Effect)
    requires PcsInv(s) && Framed(s, r, {t}, {id}) && OneStep(s, r, t, pc', id, sl, n, born, k)
    requires GoodMove(t, s.pcs[t], pc', id, s.core.slots[id], s.notes[id], sl, n, s.resetUsed)
    ensures PcOK(r, t, pc')
  {
    assert PcOK(s, t, s.pcs[t]);
    OneRely(s, r, t, pc', id, sl, n, born, k);
    hide Mentions, RelyOK, Owns, Todo, Moves, LetsGoOnly, Framed;
  }

  lemma OneRely(s: System, r: System, t: nat, pc': Pc, id: nat, sl: Slot, n: Note, born: seq<Pc>, k: Effect)
    requires t < |s.pcs| && PcOK(s, t, s.pcs[t]) && OneStep(s, r, t, pc', id, sl, n, born, k)
    requires GoodMove(t, s.pcs[t], pc', id, s.core.slots[id], s.notes[id], sl, n, s.resetUsed)
    ensures forall i :: i in Mentions(pc') ==> i < |r.core.slots| && i < |r.notes| && RelyOK(t, pc', i, r.core.slots[i], r.notes[i], r.resetUsed)
  {
    hide ChansOK, ChansMoved, Moves, LetsGoOnly;
    forall i | i in Mentions(pc')
      ensures i < |r.core.slots| && i < |r.notes| && RelyOK(t, pc', i, r.core.slots[i], r.notes[i], r.resetUsed)
    {
      if i != id { assert i in Mentions(s.pcs[t]); }
    }
  }

  lemma OneMoved(s: System, r: System, t: nat, pc': Pc, id: nat, sl: Slot, n: Note, born: seq<Pc>, k: Effect)
    requires SlotsInv(s) && PcsInv(s) && ChansInv(s) && OneStep(s, r, t, pc', id, sl, n, born, k)
    requires GoodMove(t, s.pcs[t], pc', id, s.core.slots[id], s.notes[id], sl, n, s.resetUsed)
    requires SlotOK(id, sl, n, r.pcs, s.resetUsed)
    requires born == [] || (n.put && born == [Armed(n.key, id)])
    ensures SlotsInv(r) && PcsInv(r) && ChansInv(r) && Framed(s, r, {t}, {id})
  {
    assert PcOK(s, t, s.pcs[t]);
    OneFramed(s, r, t, pc', id, sl, n, born, k);
    OneSlots(s, r, t, pc', id, sl, n, born, k);
    OneChans(s, r, t, pc', id, sl, n, born, k);
    OnePcOK(s, r, t, pc', id, sl, n, born, k);
    OnePcs(s, r, t, pc', id, sl, n, born, k);
  }

  /** A step on one slot keeps the whole invariant. */
  lemma OneInv(s: System, r: System, t: nat, pc': Pc, id: nat, sl: Slot, n: Note, born: seq<Pc>, unbind: bool, k: Effect)
    requires Inv(s) && OneStep(s, r, t, pc', id, sl, n, born, k)
    requires GoodMove(t, s.pcs[t], pc', id, s.core.slots[id], s.notes[id], sl, n, s.resetUsed)
    requires SlotOK(id, sl, n, r.pcs, s.resetUsed)
    requires born == [] || (n.put && born == [Armed(n.key, id)])
    requires ItemsMoved(s, r, id, sl, n, k.item)
    requires r.core.links == if unbind then Unbind(s.core.links, id) else s.core.links
    requires unbind || RefKept(s.core.slots[id], s.notes[id], sl, n, s.resetUsed)
    ensures Inv(r)
  {
    OneMoved(s, r, t, pc', id, sl, n, born, k);
    OneItems(s, r, t, id, sl, n, k.item);
    if unbind { KeepLinksUnbound(s, r, {t}, {id}, id); } else { KeepLinks(s, r, {t}, {id}); }
  }

  // ---------------------------------------------------------------- steps that change no slot

  /** Slot i does not depend on goroutine t being at pc rather than pc'. */
  ghost predicate Indifferent(i: nat, sl: Slot, n: Note, pc: Pc, pc': Pc) {
    && (CountedOn(pc) == Some(i) ==> sl.state == Gone)
    && (pc.Dropping? && pc.id == i ==> !(sl.state == Awake && n.holders == {}))
    && (pc.Expiring? && pc.id == i ==> sl.state != Asleep)
    && (pc.Armed? && pc.id == i && sl.state == Asleep ==> pc' == Expiring(pc.key, i))
    && (i in Todo(pc) && sl.state == Asleep ==> i in Todo(pc'))
  }

  lemma SlotIndifferent(i: nat, sl: Slot, n: Note, pcs: seq<Pc>, t: nat, pc': Pc, resetUsed: bool)
    requires SlotOK(i, sl, n, pcs, resetUsed) && t < |pcs|
    requires Owns(pcs[t]) == {} && !pc'.Armed? && Indifferent(i, sl, n, pcs[t], pc')
    ensures SlotOK(i, sl, n, pcs[t := pc'], resetUsed)
  {
  }

  lemma SlotsIndifferent(s: System, r: System, t: nat, pc': Pc)
    requires SlotsInv(s) && t < |s.pcs| && r.pcs == s.pcs[t := pc'] && r.resetUsed == s.resetUsed
    requires r.core.slots == s.core.slots && r.notes == s.notes && |r.core.closed| == |s.core.closed|
    requires Owns(s.pcs[t]) == {} && !pc'.Armed?
    requires forall i :: 0 <= i < |s.core.slots| ==> Indifferent(i, s.core.slots[i], s.notes[i], s.pcs[t], pc')
    ensures SlotsInv(r)
  {
    forall i | 0 <= i < |s.core.slots| ensures SlotOK(i, r.core.slots[i], r.notes[i], r.pcs, r.resetUsed) {
      SlotIndifferent(i, s.core.slots[i], s.notes[i], s.pcs, t, pc', s.resetUsed);
    }
  }

  lemma OnlyPc(s: System, r: System, t: nat, pc': Pc)
    requires Inv(s) && t < |s.pcs| && r == s.(pcs := s.pcs[t := pc'])
    requires Owns(s.pcs[t]) == {} && !pc'.Armed? && MustClose(s.pcs[t]) == MustClose(pc') == {}
    requires forall i :: 0 <= i < |s.core.slots| ==> Indifferent(i, s.core.slots[i], s.notes[i], s.pcs[t], pc')
    requires PcOK(r, t, pc')
    ensures Inv(r)
  {
    SlotsIndifferent(s, r, t, pc');
    KeepPcs(s, r, {t}, {});
    KeepChans(s, r, {t}, {});
    KeepItems(s, r, {t}, {});
    KeepLinks(s, r, {t}, {});
  }
}
