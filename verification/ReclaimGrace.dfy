/** How long a value that nobody holds is kept: what happens after Sleep, and what ends the grace. */
module ReclaimGrace {
  import opened Basics
  import opened AliasLinks
  import opened ReclaimCore
  import opened ReclaimSystem
  import opened ReclaimInvariant
  import opened ReclaimSteps
  import opened ReclaimRuns
  import opened ReclaimSafety

  /** The value sleeps and its key still leads to it. */
  predicate Kept(s: System, key: Key, id: nat) {
    id < |s.core.slots| && s.core.slots[id].state == Asleep && Mapped(s.core, key, id)
  }

  // ---------------------------------------------------------------- after Sleep

  lemma SleptStep(s: System, t: nat, r: System)
    requires Step(s, SleepOk(t), r)
    ensures t < |s.pcs| && s.pcs[t].Sleeping? && s.pcs[t].id < |s.core.slots|
    ensures var Sleeping(key, id, ch, enforce) := s.pcs[t];
            var kept := s.core.grace > 0 && Mapped(s.core, key, id);
            && id < |r.core.slots| && r.core.slots[id].value == s.core.slots[id].value && r.core.slots[id].enforce == s.core.slots[id].enforce
            && (kept ==> r.pcs == s.pcs[t := Done] + [Armed(key, id)] && Kept(r, key, id) && r.core.slots[id].timer == Some(|s.pcs|))
            && (!kept && enforce && s.core.grace <= 0 ==>
                  r.pcs == s.pcs[t := MappedClosing(key, id, ch)] && r.core == s.core)
            && (!kept && !(enforce && s.core.grace <= 0) ==>
                  r.pcs == s.pcs[t := Expiring(key, id)] && r.core.slots[id].state == Asleep && !Mapped(r.core, key, id))
  {
    hide Unbind;
  }

  lemma SleeperIsMapped(s: System, t: nat)
    requires Inv(s) && !s.resetUsed && t < |s.pcs| && s.pcs[t].Sleeping?
    ensures Mapped(s.core, s.pcs[t].key, s.pcs[t].id)
  {
    hide Consistent, RefOK;
    var id := s.pcs[t].id;
    assert PcOK(s, t, s.pcs[t]);
    assert id in Mentions(s.pcs[t]);
    assert SlotOK(id, s.core.slots[id], s.notes[id], s.pcs, s.resetUsed);
    assert MappedOK(id, s.core.slots[id], s.notes[id], s.core);
  }

  /** In every run without Reset: after a Sleep a positive grace keeps the value asleep under its key with a timer
      armed for it. Without grace an enforced value is closed while its key still leads to it, and any other is
      unmapped first. */
  lemma SleepDecides(run: seq<System>, acts: seq<Action>, i: nat, t: nat)
    requires Run(run, acts) && !UsesReset(acts) && i < |acts| && acts[i] == SleepOk(t)
    ensures t < |run[i].pcs| && run[i].pcs[t].Sleeping?
    ensures var Sleeping(key, id, ch, enforce) := run[i].pcs[t];
            var s, r := run[i], run[i + 1];
            && (s.core.grace > 0 ==> r.pcs == s.pcs[t := Done] + [Armed(key, id)] && Kept(r, key, id)
                                     && id < |s.core.slots| && r.core.slots[id].value == s.core.slots[id].value)
            && (s.core.grace <= 0 && enforce ==> r.pcs[t] == MappedClosing(key, id, ch) && Mapped(r.core, key, id)
                                                 && id < |r.core.slots| && r.core.slots[id].state == Busy)
            && (s.core.grace <= 0 && !enforce ==> r.pcs[t] == Expiring(key, id) && key !in r.core.items)
  {
    hide Inv;
    RunInv(run, acts, i);
    NotUsed(acts, i);
    SleptStep(run[i], t, run[i + 1]);
    SleeperIsMapped(run[i], t);
    SleeperIsBusy(run[i], t);
    if run[i].core.grace <= 0 && !run[i].pcs[t].enforce { UnmappedAfter(run[i], t, run[i + 1]); }
  }

  lemma SleeperIsBusy(s: System, t: nat)
    requires Inv(s) && t < |s.pcs| && s.pcs[t].Sleeping?
    ensures s.pcs[t].id < |s.core.slots| && s.core.slots[s.pcs[t].id].state == Busy
  {
    hide Consistent, RefOK, MappedOK, ItemOK;
    var id := s.pcs[t].id;
    assert PcOK(s, t, s.pcs[t]);
    assert id in Mentions(s.pcs[t]);
    assert SlotOK(id, s.core.slots[id], s.notes[id], s.pcs, s.resetUsed);
  }

  lemma UnmappedAfter(s: System, t: nat, r: System)
    requires Step(s, SleepOk(t), r) && s.core.grace <= 0 && Mapped(s.core, s.pcs[t].key, s.pcs[t].id) && !s.pcs[t].enforce
    ensures s.pcs[t].key !in r.core.items
  {
    hide Unbind;
  }

  // ---------------------------------------------------------------- what ends the keeping

  predicate Opens(s: System, a: Action, key: Key) { a.Lookup? && a.t < |s.pcs| && s.pcs[a.t] == Looking(key) }

  predicate Expires(s: System, a: Action, id: nat) {
    a.Expire? && a.t < |s.pcs| && s.pcs[a.t].Expiring? && s.pcs[a.t].id == id
  }

  /** Nobody else is at work on a value that is kept, or on its key. */
  ghost predicate LeftAlone(s: System, key: Key, id: nat)
    requires id < |s.core.slots|
  {
    && (forall t :: 0 <= t < |s.pcs| ==> id !in Owns(s.pcs[t]) && !(s.pcs[t].Holding? && s.pcs[t].id == id))
    && (forall t :: 0 <= t < |s.pcs| && (s.pcs[t].Creating? || s.pcs[t].Waking? || s.pcs[t].Sleeping?) ==> s.pcs[t].key != key)
    && (forall k :: k in s.core.items && k != key ==> s.core.items[k] != id)
    && s.core.slots[id].holders == 0
  }

  lemma KeptIsLeftAlone(s: System, key: Key, id: nat)
    requires Inv(s) && !s.resetUsed && Kept(s, key, id)
    ensures LeftAlone(s, key, id)
  {
    hide Consistent, RefOK;
    assert SlotOK(id, s.core.slots[id], s.notes[id], s.pcs, s.resetUsed);
    assert ItemOK(key, id, s);
    forall t | 0 <= t < |s.pcs|
      ensures id !in Owns(s.pcs[t]) && !(s.pcs[t].Holding? && s.pcs[t].id == id)
      ensures s.pcs[t].Creating? || s.pcs[t].Waking? || s.pcs[t].Sleeping? ==> s.pcs[t].key != key
    {
      assert PcOK(s, t, s.pcs[t]);
      var pc := s.pcs[t];
      assert id in Owns(pc) ==> id in Mentions(pc);
      assert pc.Holding? ==> pc.id in Mentions(pc);
      if s.pcs[t].Creating? || s.pcs[t].Waking? || s.pcs[t].Sleeping? { BusyKey(s, t); }
    }
    forall k | k in s.core.items && k != key ensures s.core.items[k] != id { assert ItemOK(k, s.core.items[k], s); }
  }

  lemma BusyKey(s: System, t: nat)
    requires Inv(s) && !s.resetUsed && t < |s.pcs| && (s.pcs[t].Creating? || s.pcs[t].Waking? || s.pcs[t].Sleeping?)
    ensures s.pcs[t].id < |s.core.slots| && s.core.slots[s.pcs[t].id].state == Busy && Mapped(s.core, s.pcs[t].key, s.pcs[t].id)
  {
    hide Consistent, RefOK, ItemOK;
    var id := s.pcs[t].id;
    assert PcOK(s, t, s.pcs[t]);
    assert id in Mentions(s.pcs[t]);
    assert SlotOK(id, s.core.slots[id], s.notes[id], s.pcs, s.resetUsed);
    assert MappedOK(id, s.core.slots[id], s.notes[id], s.core);
  }

  /** Untouched, but for the action that opens its key or expires it. */
  ghost predicate Untouched(s: System, a: Action, r: System, key: Key, id: nat)
    requires id < |s.core.slots|
  {
    && id < |r.core.slots|
    && if Opens(s, a, key) || Expires(s, a, id) then r.core.slots[id].state != Asleep
       else Mapped(r.core, key, id) && r.core.slots[id] == s.core.slots[id]
  }

  lemma LookupTouches(s: System, t: nat, key: Key, id: nat)
    requires Kept(s, key, id) && LeftAlone(s, key, id) && t < |s.pcs| && s.pcs[t].Looking? && KeyIn(s, s.pcs[t].key)
    ensures Untouched(s, Lookup(t), LookupStep(s, t), key, id)
  {
    hide Unbind;
  }

  lemma PutTouches(s: System, t: nat, value: Value, enforce: bool, key: Key, id: nat)
    requires Kept(s, key, id) && LeftAlone(s, key, id) && t < |s.pcs| && s.pcs[t].Creating? && SlotIn(s, s.pcs[t].id)
    ensures Untouched(s, CreateOk(t, value, enforce), CreateOkStep(s, t, value, enforce), key, id)
  {
    hide Unbind;
  }

  lemma FailTouches(s: System, t: nat, key: Key, id: nat)
    requires Kept(s, key, id) && LeftAlone(s, key, id) && t < |s.pcs| && s.pcs[t].Creating? && SlotIn(s, s.pcs[t].id)
    ensures Untouched(s, CreateFail(t), CreateFailStep(s, t), key, id)
  {
    hide Unbind;
  }

  lemma WakeTouches(s: System, t: nat, key: Key, id: nat)
    requires Kept(s, key, id) && LeftAlone(s, key, id) && t < |s.pcs| && s.pcs[t].Waking? && SlotIn(s, s.pcs[t].id)
    ensures Untouched(s, WakeOk(t), WakeOkStep(s, t), key, id)
  {
    hide Unbind;
  }

  lemma WakePanicTouches(s: System, t: nat, key: Key, id: nat)
    requires Kept(s, key, id) && LeftAlone(s, key, id) && t < |s.pcs| && s.pcs[t].Waking? && SlotIn(s, s.pcs[t].id)
    ensures Untouched(s, WakeFail(t), WakeFailStep(s, t), key, id)
  {
    hide Unbind;
  }

  lemma SleepPanicTouches(s: System, t: nat, key: Key, id: nat)
    requires Kept(s, key, id) && LeftAlone(s, key, id) && t < |s.pcs| && s.pcs[t].Sleeping? && SlotIn(s, s.pcs[t].id)
    ensures Untouched(s, SleepFail(t), SleepFailStep(s, t), key, id)
  {
    hide Unbind;
  }

  lemma ReleaseTouches(s: System, t: nat, key: Key, id: nat)
    requires Kept(s, key, id) && LeftAlone(s, key, id) && t < |s.pcs| && s.pcs[t].Holding? && SlotIn(s, s.pcs[t].id)
    ensures Untouched(s, Release(t), ReleaseStep(s, t), key, id)
  {
    hide Unbind;
  }

  lemma ClaimTouches(s: System, t: nat, key: Key, id: nat)
    requires Kept(s, key, id) && LeftAlone(s, key, id) && t < |s.pcs| && s.pcs[t].Dropping? && SlotIn(s, s.pcs[t].id)
    ensures Untouched(s, Claim(t), ClaimStep(s, t), key, id)
  {
    hide Unbind;
  }

  lemma ParkElsewhere(c: Core, key: Key, id: nat, grace: int, timer: nat)
    requires id < |c.slots| && c.slots[id].ready < |c.closed|
    ensures var r := ParkAsleep(c, key, id, grace, timer).0;
            && |r.slots| == |c.slots| && (forall i :: 0 <= i < |c.slots| && i != id ==> r.slots[i] == c.slots[i])
            && forall k :: k in c.items && c.items[k] != id ==> k in r.items && r.items[k] == c.items[k]
  {
  }

  lemma SleepTouches(s: System, t: nat, key: Key, id: nat)
    requires Kept(s, key, id) && LeftAlone(s, key, id) && t < |s.pcs| && s.pcs[t].Sleeping? && SlotIn(s, s.pcs[t].id)
    ensures Untouched(s, SleepOk(t), SleepOkStep(s, t), key, id)
  {
    hide ParkAsleep;
    assert id in Owns(s.pcs[t]) <==> s.pcs[t].id == id;
    ParkElsewhere(s.core, s.pcs[t].key, s.pcs[t].id, s.core.grace, |s.pcs|);
  }

  lemma CloseOldTouches(s: System, t: nat, key: Key, id: nat)
    requires Kept(s, key, id) && LeftAlone(s, key, id) && t < |s.pcs| && s.pcs[t].Swapped? && SlotIn(s, s.pcs[t].id) && s.pcs[t].oldReady < |s.core.closed|
    ensures Untouched(s, CloseOld(t), CloseOldStep(s, t), key, id)
  {
    hide Unbind;
  }

  lemma CloserTouches(s: System, t: nat, key: Key, id: nat)
    requires Kept(s, key, id) && LeftAlone(s, key, id) && t < |s.pcs| && s.pcs[t].CloserClosing? && SlotIn(s, s.pcs[t].id) && SlotIn(s, s.pcs[t].closer)
    ensures Untouched(s, CloserClosed(t), CloserClosedStep(s, t), key, id)
  {
    hide Unbind;
  }

  lemma MappedTouches(s: System, t: nat, key: Key, id: nat)
    requires Kept(s, key, id) && LeftAlone(s, key, id) && t < |s.pcs| && s.pcs[t].MappedClosing? && SlotIn(s, s.pcs[t].id)
    ensures Untouched(s, MappedClosed(t), MappedClosedStep(s, t), key, id)
  {
    hide Unbind;
  }

  lemma BareTouches(s: System, t: nat, key: Key, id: nat)
    requires Kept(s, key, id) && LeftAlone(s, key, id) && t < |s.pcs| && s.pcs[t].BareClosing? && SlotIn(s, s.pcs[t].id)
    ensures Untouched(s, BareClosed(t), BareClosedStep(s, t), key, id)
  {
    hide Unbind;
  }

  lemma ExpireTouches(s: System, t: nat, key: Key, id: nat)
    requires Kept(s, key, id) && LeftAlone(s, key, id) && t < |s.pcs| && s.pcs[t].Expiring? && SlotIn(s, s.pcs[t].id)
    ensures Untouched(s, Expire(t), ExpiryStep(s, t), key, id)
  {
    hide Unbind;
  }

  /** Without Reset no goroutine is resetting. */
  lemma NoneResets(s: System, t: nat)
    requires Inv(s) && !s.resetUsed && t < |s.pcs|
    ensures !s.pcs[t].Resetting? && !s.pcs[t].ResetSleeping? && !s.pcs[t].ResetClosing?
  {
    hide Consistent, RefOK, SlotOK, ItemOK, MappedOK;
    assert PcOK(s, t, s.pcs[t]);
  }

  lemma MoveTouches(s: System, a: Action, r: System, key: Key, id: nat)
    requires a.Lookup? || a.Replay? || a.CreateOk? || a.CreateFail? || a.WakeOk? || a.WakeFail? || a.Release?
          || a.Forsake? || a.Claim? || a.Unpark? || a.SleepOk? || a.SleepFail? || a.CloseOld? || a.CloserClosed?
          || a.MappedClosed? || a.BareClosed? || a.CloseReady? || a.Fire? || a.Expire? || a.ResetNext?
          || a.ResetSlept? || a.ResetClosed?
    requires Inv(s) && !s.resetUsed && Kept(s, key, id) && a.t < |s.pcs| && Move(s, a, r)
    ensures Untouched(s, a, r, key, id)
  {
    hide Inv, LeftAlone;
    KeptIsLeftAlone(s, key, id);
    NoneResets(s, a.t);
    match a
    case Lookup(t) => LookupTouches(s, t, key, id);
    case CreateOk(t, value, enforce) => PutTouches(s, t, value, enforce, key, id);
    case CreateFail(t) => FailTouches(s, t, key, id);
    case WakeOk(t) => WakeTouches(s, t, key, id);
    case WakeFail(t) => WakePanicTouches(s, t, key, id);
    case Release(t) => ReleaseTouches(s, t, key, id);
    case Claim(t) => ClaimTouches(s, t, key, id);
    case SleepOk(t) => SleepTouches(s, t, key, id);
    case SleepFail(t) => SleepPanicTouches(s, t, key, id);
    case CloseOld(t) => CloseOldTouches(s, t, key, id);
    case CloserClosed(t) => CloserTouches(s, t, key, id);
    case MappedClosed(t) => MappedTouches(s, t, key, id);
    case BareClosed(t) => BareTouches(s, t, key, id);
    case Expire(t) => ExpireTouches(s, t, key, id);
    case _ =>
  }

  /** Without Reset, one step ends the keeping of a value exactly if it is an Open of its key or the run of an expiry
      for it; every other step leaves the value, its record and its mapping as they were. */
  lemma KeptStepIff(s: System, a: Action, r: System, key: Key, id: nat)
    requires Inv(s) && !s.resetUsed && Step(s, a, r) && !a.ResetStart? && Kept(s, key, id)
    ensures Kept(r, key, id) <==> !Opens(s, a, key) && !Expires(s, a, id)
    ensures Kept(r, key, id) ==> r.core.slots[id] == s.core.slots[id]
  {
    hide Inv, Move, SetAlias, Watch, DropWatcher, ClearPublisher;
    match a
    case Spawn(_) =>
    case DoSetAlias(_, _, _, _) =>
    case DoWatch(_, _, _) =>
    case DoDropWatcher(_, _) =>
    case DoClearPublisher(_, _) =>
    case _ => MoveTouches(s, a, r, key, id);
  }

  /** So a value put to sleep with a positive grace is kept, the same record under the same key, until its key is
      opened or an expiry for it runs. */
  lemma {:induction false} KeptForGrace(run: seq<System>, acts: seq<Action>, i: nat, j: nat, t: nat)
    requires Run(run, acts) && !UsesReset(acts) && i < j < |run| && acts[i] == SleepOk(t) && run[i].core.grace > 0
    requires t < |run[i].pcs| && run[i].pcs[t].Sleeping?
    requires forall m :: i < m < j ==> !Opens(run[m], acts[m], run[i].pcs[t].key) && !Expires(run[m], acts[m], run[i].pcs[t].id)
    ensures Kept(run[j], run[i].pcs[t].key, run[i].pcs[t].id)
    ensures run[i].pcs[t].id < |run[i + 1].core.slots| && run[j].core.slots[run[i].pcs[t].id] == run[i + 1].core.slots[run[i].pcs[t].id]
  {
    hide Step, Inv;
    SleepDecides(run, acts, i, t);
    if j > i + 1 {
      KeptForGrace(run, acts, i, j - 1, t);
      RunInv(run, acts, j - 1);
      NotUsed(acts, j - 1);
      assert !acts[j - 1].ResetStart?;
      KeptStepIff(run[j - 1], acts[j - 1], run[j], run[i].pcs[t].key, run[i].pcs[t].id);
    }
  }

  lemma WokenStep(s: System, v: nat, r: System, key: Key, id: nat)
    requires Step(s, Lookup(v), r) && v < |s.pcs| && s.pcs[v] == Looking(key) && Kept(s, key, id)
    ensures v < |r.pcs| && r.pcs[v].Waking? && r.pcs[v].key == key && r.pcs[v].id == id
    ensures r.pcs[v].value == s.core.slots[id].value && r.pcs[v].enforce == s.core.slots[id].enforce && Mapped(r.core, key, id)
    ensures var timer := s.core.slots[id].timer;
            timer.Some? && timer.value < |s.pcs| ==> timer.value < |r.pcs| && !r.pcs[timer.value].Armed?
  {
    hide Unbind;
  }

  /** An Open within the grace wakes the very value that was put to sleep, and stops the timer armed for it. */
  lemma OpenWithinGrace(run: seq<System>, acts: seq<Action>, i: nat, j: nat, t: nat, v: nat)
    requires Run(run, acts) && !UsesReset(acts) && i < j < |acts| && acts[i] == SleepOk(t) && run[i].core.grace > 0
    requires t < |run[i].pcs| && run[i].pcs[t].Sleeping? && acts[j] == Lookup(v) && v < |run[j].pcs| && run[j].pcs[v] == Looking(run[i].pcs[t].key)
    requires forall m :: i < m < j ==> !Opens(run[m], acts[m], run[i].pcs[t].key) && !Expires(run[m], acts[m], run[i].pcs[t].id)
    ensures var id := run[i].pcs[t].id;
            && id < |run[i].core.slots| && v < |run[j + 1].pcs| && run[j + 1].pcs[v].Waking? && run[j + 1].pcs[v].id == id
            && run[j + 1].pcs[v].value == run[i].core.slots[id].value
            && |run[i].pcs| < |run[j + 1].pcs| && !run[j + 1].pcs[|run[i].pcs|].Armed?
  {
    hide Step, Inv;
    SleepDecides(run, acts, i, t);
    SleptStep(run[i], t, run[i + 1]);
    RunInv(run, acts, i);
    NotUsed(acts, i);
    SleeperIsMapped(run[i], t);
    KeptForGrace(run, acts, i, j, t);
    WokenStep(run[j], v, run[j + 1], run[i].pcs[t].key, run[i].pcs[t].id);
    TimerInRange(run, acts, j, run[i].pcs[t].id);
  }

  lemma TimerInRange(run: seq<System>, acts: seq<Action>, j: nat, id: nat)
    requires Run(run, acts) && j < |run| && id < |run[j].core.slots| && run[j].core.slots[id].timer.Some?
    ensures run[j].core.slots[id].timer.value < |run[j].pcs|
  {
    hide Step;
    RunInv(run, acts, j);
    hide Run, Consistent, RefOK;
    var s := run[j];
    assert SlotOK(id, s.core.slots[id], s.notes[id], s.pcs, s.resetUsed);
  }
}
