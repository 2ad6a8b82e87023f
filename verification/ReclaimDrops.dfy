/** When a drop finds its slot busy and has to wait. */
module ReclaimDrops {
  import opened Basics
  import opened AliasLinks
  import opened ReclaimCore
  import opened ReclaimSystem
  import opened ReclaimInvariant
  import opened ReclaimRuns
  import opened ReclaimSafety

  function Mover(a: Action): Option<nat> {
    match a
    case Spawn(_) => None
    case ResetStart(_) => None
    case DoSetAlias(_, _, _, _) => None
    case DoWatch(_, _, _) => None
    case DoDropWatcher(_, _) => None
    case DoClearPublisher(_, _) => None
    case _ => Some(a.t)
  }

  /** The action takes slot i up for a Sleep, a Wake or an enforced Close: the drop of its last holder claims
      it, an Open finds it asleep, or its grace is over. */
  predicate TakesUp(s: System, a: Action, i: nat)
    requires i < |s.core.slots|
  {
    match a
    case Claim(u) => u < |s.pcs| && s.pcs[u].Dropping? && s.pcs[u].id == i
                     && s.core.slots[i].state == Awake && s.core.slots[i].holders == 0
    case Lookup(u) => u < |s.pcs| && s.pcs[u].Looking? && Mapped(s.core, s.pcs[u].key, i) && s.core.slots[i].state == Asleep
    case Expire(u) => u < |s.pcs| && s.pcs[u].Expiring? && s.pcs[u].id == i
                      && s.core.slots[i].state == Asleep && s.core.slots[i].holders == 0 && s.core.slots[i].enforce
    case _ => false
  }

  // ---------------------------------------------------------------- what makes a slot busy

  ghost predicate Busied(s: System, a: Action, r: System, i: nat)
    requires i < |s.core.slots|
  {
    && i < |r.core.slots|
    && (s.core.slots[i].state != Busy ==> (r.core.slots[i].state == Busy <==> TakesUp(s, a, i)))
    && (s.core.slots[i].state == Busy && r.core.slots[i].state == Busy ==> r.core.slots[i].ready == s.core.slots[i].ready)
  }

  predicate Opens(a: Action) { a.Spawn? || a.Replay? || a.CreateOk? || a.CreateFail? }
  predicate Wakes(a: Action) { a.WakeOk? || a.WakeFail? }
  predicate Drops(a: Action) { a.Release? || a.Forsake? || a.Unpark? }
  predicate Ends(a: Action) { a.CloseOld? || a.CloserClosed? || a.MappedClosed? || a.BareClosed? || a.CloseReady? || a.Fire? }

  lemma OpenMoves(s: System, a: Action, r: System, i: nat)
    requires Step(s, a, r) && i < |s.core.slots| && Opens(a)
    ensures Busied(s, a, r, i)
  {
    hide Unbind;
  }

  lemma WakeMoves(s: System, a: Action, r: System, i: nat)
    requires Step(s, a, r) && i < |s.core.slots| && Wakes(a)
    ensures Busied(s, a, r, i)
  {
    hide Unbind;
  }

  lemma DropMoves(s: System, a: Action, r: System, i: nat)
    requires Step(s, a, r) && i < |s.core.slots| && Drops(a)
    ensures Busied(s, a, r, i)
  {
    hide Unbind;
  }

  lemma SleepMoves(s: System, a: Action, r: System, i: nat)
    requires Step(s, a, r) && i < |s.core.slots| && a.SleepOk?
    ensures Busied(s, a, r, i)
  {
    hide Unbind;
  }

  lemma SleepPanics(s: System, a: Action, r: System, i: nat)
    requires Step(s, a, r) && i < |s.core.slots| && a.SleepFail?
    ensures Busied(s, a, r, i)
  {
    hide Unbind;
  }

  lemma EndMoves(s: System, a: Action, r: System, i: nat)
    requires Step(s, a, r) && i < |s.core.slots| && Ends(a)
    ensures Busied(s, a, r, i)
  {
    hide Unbind;
  }

  lemma WideMoves(s: System, a: Action, r: System, i: nat)
    requires Step(s, a, r) && i < |s.core.slots| && !Opens(a) && !Wakes(a) && !Drops(a) && !Ends(a) && !a.SleepOk? && !a.SleepFail? && !a.Lookup? && !a.Claim? && !a.Expire?
    ensures Busied(s, a, r, i)
  {
    hide Unbind, UnbindAll, SetAlias, Watch, DropWatcher, ClearPublisher, StopAll, Reassigned;
  }

  lemma LookupMoves(s: System, a: Action, r: System, i: nat)
    requires Step(s, a, r) && i < |s.core.slots| && a.Lookup?
    ensures Busied(s, a, r, i)
  {
    hide Unbind;
  }

  lemma ClaimMoves(s: System, a: Action, r: System, i: nat)
    requires Step(s, a, r) && i < |s.core.slots| && a.Claim?
    ensures Busied(s, a, r, i)
  {
    hide Unbind;
  }

  lemma ExpireMoves(s: System, a: Action, r: System, i: nat)
    requires Step(s, a, r) && i < |s.core.slots| && a.Expire?
    ensures Busied(s, a, r, i)
  {
    hide Unbind;
  }

  /** A slot becomes busy by being taken up, and by nothing else, and keeps its ready channel while it is. */
  lemma BusiedIff(s: System, a: Action, r: System, i: nat)
    requires Step(s, a, r) && i < |s.core.slots|
    ensures Busied(s, a, r, i)
  {
    hide Step, Busied, Opens, Wakes, Drops, Ends;
    if a.Lookup? { LookupMoves(s, a, r, i); }
    else if a.Claim? { ClaimMoves(s, a, r, i); }
    else if a.Expire? { ExpireMoves(s, a, r, i); }
    else if Opens(a) { OpenMoves(s, a, r, i); }
    else if Wakes(a) { WakeMoves(s, a, r, i); }
    else if Drops(a) { DropMoves(s, a, r, i); }
    else if Ends(a) { EndMoves(s, a, r, i); }
    else if a.SleepOk? { SleepMoves(s, a, r, i); }
    else if a.SleepFail? { SleepPanics(s, a, r, i); }
    else { WideMoves(s, a, r, i); }
  }

  // ---------------------------------------------------------------- a drop between its two sections

  ghost predicate StillDropping(s: System, r: System, t: nat) {
    t < |s.pcs| && (s.pcs[t].Dropping? || s.pcs[t].DropParked?) ==> t < |r.pcs| && r.pcs[t] == s.pcs[t]
  }

  lemma OthersLeave(s: System, a: Action, r: System, t: nat)
    requires Step(s, a, r) && Mover(a) != Some(t) && Mover(a).Some?
    ensures StillDropping(s, r, t)
  {
    hide Unbind, LookupOpen, EndBusySlot, PublishPut, PublishWake, InstallCloser, ClaimDrop, ClaimExpire, ParkAsleep, UnmapLocked, EndResetSlot;
  }

  lemma NoneLeave(s: System, a: Action, r: System, t: nat)
    requires Step(s, a, r) && Mover(a).None?
    ensures StillDropping(s, r, t)
  {
    hide TakeAll, Reassigned, SetAlias, Watch, DropWatcher, ClearPublisher, AliasTarget;
  }

  lemma {:induction false} DroppingUntil(run: seq<System>, acts: seq<Action>, t: nat, i: nat, j: nat)
    requires Run(run, acts) && i <= j < |run| && t < |run[i].pcs| && (run[i].pcs[t].Dropping? || run[i].pcs[t].DropParked?)
    requires forall m :: i <= m < j ==> Mover(acts[m]) != Some(t)
    ensures t < |run[j].pcs| && run[j].pcs[t] == run[i].pcs[t]
  {
    hide Step;
    if i < j {
      DroppingUntil(run, acts, t, i, j - 1);
      if Mover(acts[j - 1]).Some? { OthersLeave(run[j - 1], acts[j - 1], run[j], t); } else { NoneLeave(run[j - 1], acts[j - 1], run[j], t); }
    }
  }

  // ---------------------------------------------------------------- busy spells

  /** From step m, where it is taken up, to state j the slot is busy. */
  ghost predicate Spell(run: seq<System>, acts: seq<Action>, id: nat, m: nat, j: nat) {
    && m < j < |run| && m < |acts| && id < |run[m].core.slots| && TakesUp(run[m], acts[m], id)
    && forall l :: m < l <= j ==> id < |run[l].core.slots| && run[l].core.slots[id].state == Busy
  }

  /** A slot that was not busy at i is busy at j exactly if it was taken up in between and that spell lasts. */
  lemma {:induction false} BusyBySpell(run: seq<System>, acts: seq<Action>, id: nat, i: nat, j: nat)
    requires Run(run, acts) && i <= j < |run| && id < |run[i].core.slots| && run[i].core.slots[id].state != Busy
    ensures id < |run[j].core.slots|
    ensures run[j].core.slots[id].state == Busy <==> exists m: nat :: i <= m && Spell(run, acts, id, m, j)
  {
    hide Step, TakesUp;
    if i < j {
      BusyBySpell(run, acts, id, i, j - 1);
      var s, a, r := run[j - 1], acts[j - 1], run[j];
      BusiedIff(s, a, r, id);
      if s.core.slots[id].state != Busy {
        if r.core.slots[id].state == Busy { assert Spell(run, acts, id, j - 1, j); }
        else { assert forall m: nat :: !Spell(run, acts, id, m, j); }
      } else {
        var m: nat :| i <= m && Spell(run, acts, id, m, j - 1);
        if r.core.slots[id].state == Busy { assert Spell(run, acts, id, m, j); }
      }
    }
  }

  lemma Released(s: System, t: nat, r: System)
    requires Step(s, Release(t), r)
    ensures t < |s.pcs| && s.pcs[t].Holding? && t < |r.pcs| && r.pcs[t] == Dropping(s.pcs[t].key, s.pcs[t].id)
    ensures var id := s.pcs[t].id; id < |s.core.slots| == |r.core.slots| && r.core.slots[id].state == s.core.slots[id].state
  {
    hide Unbind;
  }

  lemma Claimed(s: System, t: nat, r: System)
    requires Step(s, Claim(t), r)
    ensures t < |s.pcs| && s.pcs[t].Dropping? && s.pcs[t].id < |s.core.slots| && t < |r.pcs|
    ensures r.pcs[t].DropParked? <==> s.core.slots[s.pcs[t].id].state == Busy
  {
    hide Unbind;
  }

  /** In every run without Reset, a drop that released its count at step i and claims at step j parks
      exactly if some other goroutine took the slot up strictly in between and has not finished with it. */
  lemma DropParksIff(run: seq<System>, acts: seq<Action>, t: nat, i: nat, j: nat)
    requires Run(run, acts) && !UsesReset(acts) && i < j < |acts| && acts[i] == Release(t) && acts[j] == Claim(t)
    requires forall m :: i < m < j ==> Mover(acts[m]) != Some(t)
    ensures t < |run[i].pcs| && run[i].pcs[t].Holding? && t < |run[j + 1].pcs|
    ensures run[j + 1].pcs[t].DropParked? <==> exists m: nat :: i < m && Spell(run, acts, run[i].pcs[t].id, m, j)
  {
    hide Step, Spell;
    Released(run[i], t, run[i + 1]);
    Claimed(run[j], t, run[j + 1]);
    HeldIsAwake(run, acts, i, t);
    DroppingUntil(run, acts, t, i + 1, j);
    BusyBySpell(run, acts, run[i].pcs[t].id, i + 1, j);
  }

  /** So a drop never parks if nobody takes its slot up between its two sections. */
  lemma QuietDropNeverParks(run: seq<System>, acts: seq<Action>, t: nat, i: nat, j: nat)
    requires Run(run, acts) && !UsesReset(acts) && i < j < |acts| && acts[i] == Release(t) && acts[j] == Claim(t)
    requires forall m :: i < m < j ==> Mover(acts[m]) != Some(t)
    requires t < |run[i].pcs| && run[i].pcs[t].Holding?
    requires forall m :: i < m < j && run[i].pcs[t].id < |run[m].core.slots| ==> !TakesUp(run[m], acts[m], run[i].pcs[t].id)
    ensures t < |run[j + 1].pcs| && !run[j + 1].pcs[t].DropParked?
  {
    hide Step, TakesUp;
    DropParksIff(run, acts, t, i, j);
  }

  // ---------------------------------------------------------------- a drop that has waited

  lemma ParkedOn(s: System, t: nat, r: System)
    requires Step(s, Claim(t), r) && t < |r.pcs| && r.pcs[t].DropParked?
    ensures t < |s.pcs| && s.pcs[t].Dropping? && s.pcs[t].id < |s.core.slots| && s.core.slots[s.pcs[t].id].state == Busy
    ensures r.pcs[t] == DropParked(s.pcs[t].key, s.pcs[t].id, s.core.slots[s.pcs[t].id].ready)
  {
    hide Unbind;
  }

  lemma Unparks(s: System, t: nat, r: System)
    requires Step(s, Unpark(t), r)
    ensures t < |s.pcs| && s.pcs[t].DropParked? && IsClosed(s, s.pcs[t].ch)
    ensures t < |r.pcs| && r.pcs[t] == Dropping(s.pcs[t].key, s.pcs[t].id) && r.core == s.core
  {
    hide Unbind;
  }

  /** While a slot is busy without a break its channel is the same. */
  lemma {:induction false} SameChannel(run: seq<System>, acts: seq<Action>, id: nat, i: nat, j: nat)
    requires Run(run, acts) && i <= j < |run|
    requires forall l :: i <= l <= j ==> id < |run[l].core.slots| && run[l].core.slots[id].state == Busy
    ensures run[j].core.slots[id].ready == run[i].core.slots[id].ready
  {
    hide Step;
    if i < j {
      SameChannel(run, acts, id, i, j - 1);
      BusiedIff(run[j - 1], acts[j - 1], run[j], id);
    }
  }

  lemma BusyIsOpen(s: System, i: nat)
    requires Inv(s) && i < |s.core.slots| && s.core.slots[i].state == Busy
    ensures !IsClosed(s, s.core.slots[i].ready)
  {
    BusyOwner(s, i);
    hide SlotsInv, ChansInv, ItemsInv, LinksInv;
    var t :| 0 <= t < |s.pcs| && s.core.slots[i].ready in MustClose(s.pcs[t]);
    assert PcOK(s, t, s.pcs[t]);
  }

  lemma {:induction false} SlotsStay(run: seq<System>, acts: seq<Action>, id: nat, i: nat, j: nat)
    requires Run(run, acts) && i <= j < |run| && id < |run[i].core.slots|
    ensures id < |run[j].core.slots|
  {
    hide Step;
    if i < j {
      SlotsStay(run, acts, id, i, j - 1);
      BusiedIff(run[j - 1], acts[j - 1], run[j], id);
    }
  }

  /** Whoever is unparked has seen the spell end that it waited for. */
  lemma SpellEnded(run: seq<System>, acts: seq<Action>, t: nat, p: nat, i: nat) returns (l: nat)
    requires Run(run, acts) && p < i < |acts| && acts[p] == Claim(t) && acts[i] == Unpark(t)
    requires t < |run[p + 1].pcs| && run[p + 1].pcs[t].DropParked?
    requires forall m :: p < m < i ==> Mover(acts[m]) != Some(t)
    ensures t < |run[p].pcs| && run[p].pcs[t].Dropping? && run[i + 1].core == run[i].core
    ensures t < |run[i + 1].pcs| && run[i + 1].pcs[t] == run[p].pcs[t]
    ensures p < l <= i && run[p].pcs[t].id < |run[l].core.slots| && run[l].core.slots[run[p].pcs[t].id].state != Busy
  {
    hide Step, Inv;
    ParkedOn(run[p], t, run[p + 1]);
    Unparks(run[i], t, run[i + 1]);
    DroppingUntil(run, acts, t, p + 1, i);
    var id := run[p].pcs[t].id;
    forall n | p <= n <= i ensures id < |run[n].core.slots| { SlotsStay(run, acts, id, p, n); }
    if forall n :: p <= n <= i ==> run[n].core.slots[id].state == Busy {
      SameChannel(run, acts, id, p, i);
      RunInv(run, acts, i);
      BusyIsOpen(run[i], id);
      assert false;
    }
    l :| p <= l <= i && run[l].core.slots[id].state != Busy;
  }

  /** In every run, Reset included, a drop that parked at step p, was unparked at step i and claims again at
      step j parks again exactly if some goroutine has taken the slot up since p and has not finished with it. */
  lemma UnparkedDropParksIff(run: seq<System>, acts: seq<Action>, t: nat, p: nat, i: nat, j: nat)
    requires Run(run, acts) && p < i < j < |acts| && acts[p] == Claim(t) && acts[i] == Unpark(t) && acts[j] == Claim(t)
    requires t < |run[p + 1].pcs| && run[p + 1].pcs[t].DropParked?
    requires forall m :: p < m < j && m != i ==> Mover(acts[m]) != Some(t)
    ensures t < |run[p].pcs| && run[p].pcs[t].Dropping? && t < |run[j + 1].pcs|
    ensures run[j + 1].pcs[t].DropParked? <==> exists m: nat :: p < m && Spell(run, acts, run[p].pcs[t].id, m, j)
  {
    hide Step;
    var l := SpellEnded(run, acts, t, p, i);
    Claimed(run[j], t, run[j + 1]);
    DroppingUntil(run, acts, t, i + 1, j);
    BusyBySpell(run, acts, run[p].pcs[t].id, l, j);
    assert forall m: nat :: Spell(run, acts, run[p].pcs[t].id, m, j) ==> l <= m;
  }
}
