/** The promises of the reclaim table, stated of every run. */
module ReclaimSafety {
  import opened Basics
  import opened AliasLinks
  import opened ReclaimCore
  import opened ReclaimSystem
  import opened ReclaimInvariant
  import opened ReclaimSteps
  import opened ReclaimWideSteps
  import opened ReclaimRuns

  // ---------------------------------------------------------------- facts read off the invariant

  ghost predicate HasClosed(n: Note) {
    n.trace != [] && n.trace[|n.trace| - 1] == CloseEnd
  }

  lemma EndedMeansClosed(trace: seq<Event>)
    requires PhaseOf(trace) == Phase.Ended
    ensures trace != [] && trace[|trace| - 1] == CloseEnd
  {
  }

  /** While an exclusive value is not closed its key stays occupied, by it or by its closer. */
  lemma Occupied(s: System, i: nat)
    requires Inv(s) && !s.resetUsed && i < |s.core.slots|
    requires s.notes[i].put && s.core.slots[i].enforce && !HasClosed(s.notes[i])
    ensures s.notes[i].key in s.core.items
    ensures var j := s.core.items[s.notes[i].key];
            j == i || (exists t :: 0 <= t < |s.pcs| && (s.pcs[t].Swapped? || s.pcs[t].CloserClosing?)
                                   && s.pcs[t].id == i && s.pcs[t].closer == j)
  {
    hide Consistent, RefOK;
    var n, sl := s.notes[i], s.core.slots[i];
    assert SlotOK(i, sl, n, s.pcs, s.resetUsed);
    assert MappedOK(i, sl, n, s.core);
    if PhaseOf(n.trace) == Phase.Ended { EndedMeansClosed(n.trace); }
    if sl.state == Gone {
      var t := n.owner.value;
      var j := s.pcs[t].closer;
      assert PcOK(s, t, s.pcs[t]);
      assert j in Mentions(s.pcs[t]);
      assert SlotOK(j, s.core.slots[j], s.notes[j], s.pcs, s.resetUsed);
      assert MappedOK(j, s.core.slots[j], s.notes[j], s.core);
    }
  }

  // ---------------------------------------------------------------- close before open

  lemma NotUsed(acts: seq<Action>, k: nat)
    requires !UsesReset(acts) && k <= |acts|
    ensures !UsesReset(acts[..k])
  {
  }

  ghost predicate StartsCreate(s: System, a: Action, r: System, key: Key) {
    a.Lookup? && a.t < |s.pcs| && s.pcs[a.t] == Looking(key) && a.t < |r.pcs| && r.pcs[a.t].Creating?
  }

  lemma CreateNeedsUnmapped(s: System, a: Action, r: System, key: Key)
    requires Step(s, a, r) && StartsCreate(s, a, r, key)
    ensures key !in s.core.items
  {
  }

  lemma NoCreateNow(s: System, i: nat)
    requires Inv(s) && !s.resetUsed && i < |s.core.slots|
    requires s.notes[i].put && s.core.slots[i].enforce && !HasClosed(s.notes[i])
    ensures s.notes[i].key in s.core.items
    ensures forall t :: 0 <= t < |s.pcs| ==> !(s.pcs[t].Creating? && s.pcs[t].key == s.notes[i].key)
  {
    hide Consistent, RefOK;
    Occupied(s, i);
    forall t | 0 <= t < |s.pcs| && s.pcs[t].Creating? ensures s.pcs[t].key != s.notes[i].key {
      var j := s.pcs[t].id;
      assert PcOK(s, t, s.pcs[t]);
      assert j in Mentions(s.pcs[t]);
      assert SlotOK(j, s.core.slots[j], s.notes[j], s.pcs, s.resetUsed);
      assert MappedOK(j, s.core.slots[j], s.notes[j], s.core);
    }
  }

  // ---------------------------------------------------------------- what never changes

  /** A note only grows, and a value that was put keeps its value and its stored flag. */
  ghost predicate Older(sl: Slot, n: Note, sl': Slot, n': Note) {
    && n'.key == n.key && n.trace <= n'.trace
    && (n.put ==> n'.put && sl'.enforce == sl.enforce && sl'.value == sl.value)
  }

  ghost predicate Later(s: System, r: System) {
    && |s.core.slots| <= |r.core.slots| && |s.notes| == |s.core.slots| && |r.notes| == |r.core.slots|
    && (forall i :: 0 <= i < |s.core.slots| ==> Older(s.core.slots[i], s.notes[i], r.core.slots[i], r.notes[i]))
  }

  lemma LookupLater(s: System, t: nat, r: System)
    requires |s.notes| == |s.core.slots| && t < |s.pcs| && s.pcs[t].Looking? && KeyIn(s, s.pcs[t].key) && r == LookupStep(s, t)
    ensures Later(s, r)
  {
  }

  lemma PutLater(s: System, a: Action, r: System)
    requires |s.notes| == |s.core.slots| && Step(s, a, r)
    requires a.CreateOk? || a.CreateFail?
    requires a.CreateOk? && SlotIn(s, s.pcs[a.t].id) ==> !s.notes[s.pcs[a.t].id].put
    ensures Later(s, r)
  {
    hide Unbind;
  }

  lemma HoldLater(s: System, a: Action, r: System)
    requires |s.notes| == |s.core.slots| && Step(s, a, r)
    requires a.Replay? || a.WakeOk? || a.Release? || a.Forsake? || a.Unpark? || a.Fire? || a.CloseReady?
    ensures Later(s, r)
  {
    hide Unbind;
  }

  lemma PanicLater(s: System, t: nat, key: Key, id: nat, enforce: bool, ch: nat, e: Event, err: Option<Failure>)
    requires |s.notes| == |s.core.slots| && t < |s.pcs| && SlotIn(s, id)
    ensures Later(s, EndAfterPanic(s, t, key, id, enforce, ch, e, err))
  {
    hide Unbind;
  }

  lemma ParkTouchesOne(c: Core, key: Key, id: nat, grace: int, timer: nat)
    requires id < |c.slots| && c.slots[id].ready < |c.closed|
    ensures var slots := ParkAsleep(c, key, id, grace, timer).0.slots;
            |slots| == |c.slots| && slots == c.slots[id := c.slots[id].(state := Asleep, timer := slots[id].timer)]
  {
  }

  lemma SleepLater(s: System, t: nat)
    requires |s.notes| == |s.core.slots| && t < |s.pcs| && s.pcs[t].Sleeping? && SlotIn(s, s.pcs[t].id)
    ensures Later(s, SleepOkStep(s, t))
  {
    hide ParkAsleep;
    ParkTouchesOne(s.core, s.pcs[t].key, s.pcs[t].id, s.core.grace, |s.pcs|);
  }

  lemma ClaimLater(s: System, t: nat)
    requires |s.notes| == |s.core.slots| && t < |s.pcs| && s.pcs[t].Dropping? && SlotIn(s, s.pcs[t].id)
    ensures Later(s, ClaimStep(s, t))
  {
    hide Unbind;
  }

  lemma CloseLater(s: System, a: Action, r: System)
    requires |s.notes| == |s.core.slots| && Step(s, a, r)
    requires a.CloseOld? || a.MappedClosed? || a.BareClosed?
    ensures Later(s, r)
  {
    hide Unbind;
  }

  lemma ExpiryLater(s: System, t: nat)
    requires |s.notes| == |s.core.slots| && t < |s.pcs| && s.pcs[t].Expiring? && SlotIn(s, s.pcs[t].id)
    ensures Later(s, ExpiryStep(s, t))
  {
  }

  lemma CloserLater(s: System, a: Action, r: System)
    requires |s.notes| == |s.core.slots| && Step(s, a, r)
    requires a.CloserClosed?
    requires s.pcs[a.t].id != s.pcs[a.t].closer
    ensures Later(s, r)
  {
    hide Unbind;
  }

  lemma ResetStartLater(s: System, a: Action, r: System)
    requires |s.notes| == |s.core.slots| && a.ResetStart? && Step(s, a, r)
    ensures Later(s, r)
  {
    hide UnbindAll, StopAll;
  }

  lemma ResetNextLater(s: System, a: Action, r: System)
    requires |s.notes| == |s.core.slots| && a.ResetNext? && Step(s, a, r)
    ensures Later(s, r)
  {
  }

  lemma ResetEndLater(s: System, a: Action, r: System)
    requires |s.notes| == |s.core.slots| && (a.ResetSlept? || a.ResetClosed?) && Step(s, a, r)
    ensures Later(s, r)
  {
  }

  lemma AliasLater(s: System, a: Action, r: System)
    requires |s.notes| == |s.core.slots| && Step(s, a, r)
    requires a.Spawn? || a.DoSetAlias? || a.DoWatch? || a.DoDropWatcher? || a.DoClearPublisher?
    ensures Later(s, r)
  {
    hide SetAlias, Watch, DropWatcher, ClearPublisher;
  }

  lemma OpenLater(s: System, a: Action, r: System)
    requires Inv(s) && Step(s, a, r) && (a.Lookup? || a.SleepOk? || a.Claim? || a.Expire? || a.WakeFail? || a.SleepFail?)
    ensures Later(s, r)
  {
    hide Later, PcsInv, ChansInv, ItemsInv, LinksInv, LookupStep, SleepOkStep, ClaimStep, ExpiryStep, EndAfterPanic;
    var t := a.t;
    match a
    case Lookup(_) => LookupLater(s, t, r);
    case WakeFail(_) => PanicLater(s, t, s.pcs[t].key, s.pcs[t].id, s.pcs[t].enforce, s.pcs[t].ch, WakePanic, Some(WakePanicked));
    case SleepFail(_) => PanicLater(s, t, s.pcs[t].key, s.pcs[t].id, s.pcs[t].enforce, s.pcs[t].ch, SleepPanic, None);
    case SleepOk(_) => SleepLater(s, t);
    case Claim(_) => ClaimLater(s, t);
    case Expire(_) => ExpiryLater(s, t);
  }

  lemma CreateLater(s: System, a: Action, r: System)
    requires Inv(s) && Step(s, a, r) && a.CreateOk?
    ensures Later(s, r)
  {
    hide Later, PcsInv, ChansInv, ItemsInv, LinksInv;
    OwnedUnput(s, a.t);
    hide Step;
    PutLater(s, a, r);
  }

  lemma CloserEndLater(s: System, a: Action, r: System)
    requires Inv(s) && Step(s, a, r) && a.CloserClosed?
    ensures Later(s, r)
  {
    hide Later, PcsInv, ChansInv, ItemsInv, LinksInv;
    CloserApart(s, a.t);
    hide Step;
    CloserLater(s, a, r);
  }

  lemma StepLater(s: System, a: Action, r: System)
    requires Inv(s) && Step(s, a, r)
    ensures Later(s, r)
  {
    hide Step, Later, PcsInv, ChansInv, ItemsInv, LinksInv;
    if a.CreateOk? { CreateLater(s, a, r); }
    else if a.CreateFail? { PutLater(s, a, r); }
    else if a.CloserClosed? { CloserEndLater(s, a, r); }
    else if a.CloseOld? || a.MappedClosed? || a.BareClosed? { CloseLater(s, a, r); }
    else if a.Replay? || a.WakeOk? || a.Release? || a.Forsake? || a.Unpark? || a.Fire? || a.CloseReady? { HoldLater(s, a, r); }
    else if a.ResetStart? { ResetStartLater(s, a, r); }
    else if a.ResetNext? { ResetNextLater(s, a, r); }
    else if a.ResetSlept? || a.ResetClosed? { ResetEndLater(s, a, r); }
    else if a.Lookup? || a.SleepOk? || a.Claim? || a.Expire? || a.WakeFail? || a.SleepFail? { OpenLater(s, a, r); }
    else { AliasLater(s, a, r); }
  }

  lemma OwnedUnput(s: System, t: nat)
    requires Inv(s) && t < |s.pcs| && s.pcs[t].Creating?
    ensures SlotIn(s, s.pcs[t].id) && !s.notes[s.pcs[t].id].put
  {
    hide Consistent, RefOK, ItemOK, MappedOK;
    assert PcOK(s, t, s.pcs[t]);
    var id := s.pcs[t].id;
    assert id in Mentions(s.pcs[t]);
    assert SlotOK(id, s.core.slots[id], s.notes[id], s.pcs, s.resetUsed);
  }

  lemma CloserApart(s: System, t: nat)
    requires Inv(s) && t < |s.pcs| && s.pcs[t].CloserClosing?
    ensures s.pcs[t].id != s.pcs[t].closer
  {
    hide Consistent, RefOK, ItemOK, MappedOK;
    assert PcOK(s, t, s.pcs[t]);
    var id := s.pcs[t].id;
    assert id in Mentions(s.pcs[t]);
    assert SlotOK(id, s.core.slots[id], s.notes[id], s.pcs, s.resetUsed);
  }

  lemma {:induction false} RunLater(run: seq<System>, acts: seq<Action>, a: nat, b: nat)
    requires Run(run, acts) && a <= b < |run|
    ensures Later(run[a], run[b])
    decreases b - a
  {
    RunInv(run, acts, a);
    if a < b {
      StepLater(run[a], acts[a], run[a + 1]);
      RunLater(run, acts, a + 1, b);
      LaterTrans(run[a], run[a + 1], run[b]);
    }
  }

  lemma LaterTrans(s: System, m: System, r: System)
    requires Later(s, m) && Later(m, r)
    ensures Later(s, r)
  {
    forall i | 0 <= i < |s.core.slots| ensures Older(s.core.slots[i], s.notes[i], r.core.slots[i], r.notes[i]) {
      assert Older(s.core.slots[i], s.notes[i], m.core.slots[i], m.notes[i]);
      assert Older(m.core.slots[i], m.notes[i], r.core.slots[i], r.notes[i]);
    }
  }

  /** In every run without Reset: once a value was stored with EnforceCloseBeforeOpen, a create for
      its key starts only after its Close has returned, however the value ended. */
  lemma CloseBeforeOpen(run: seq<System>, acts: seq<Action>, a: nat, b: nat, i: nat)
    requires Run(run, acts) && !UsesReset(acts) && a <= b < |acts|
    requires i < |run[a].core.slots| && i < |run[a].notes| && run[a].notes[i].put && run[a].core.slots[i].enforce
    requires StartsCreate(run[b], acts[b], run[b + 1], run[a].notes[i].key)
    ensures i < |run[b].notes| && HasClosed(run[b].notes[i])
  {
    hide Inv, Step;
    RunLater(run, acts, a, b);
    RunInv(run, acts, b);
    NotUsed(acts, b);
    assert Older(run[a].core.slots[i], run[a].notes[i], run[b].core.slots[i], run[b].notes[i]);
    CreateNeedsUnmapped(run[b], acts[b], run[b + 1], run[a].notes[i].key);
    if !HasClosed(run[b].notes[i]) { NoCreateNow(run[b], i); }
  }

  // ---------------------------------------------------------------- holders

  /** In every run without Reset, a holder's value is awake and mapped under its key: it is neither
      slept nor closed while held. */
  lemma HeldIsAwake(run: seq<System>, acts: seq<Action>, k: nat, t: nat)
    requires Run(run, acts) && !UsesReset(acts) && k < |run|
    requires t < |run[k].pcs| && run[k].pcs[t].Holding?
    ensures var Holding(key, id, value) := run[k].pcs[t];
            && Mapped(run[k].core, key, id) && id < |run[k].core.slots| && id < |run[k].notes|
            && run[k].core.slots[id].state == Awake && run[k].core.slots[id].value == value
            && run[k].core.slots[id].holders > 0
            && PhaseOf(run[k].notes[id].trace) == Up
  {
    hide Step;
    RunInv(run, acts, k);
    NotUsed(acts, k);
    hide Consistent, RefOK, Run;
    var s := run[k];
    var id := s.pcs[t].id;
    assert PcOK(s, t, s.pcs[t]);
    assert id in Mentions(s.pcs[t]);
    assert SlotOK(id, s.core.slots[id], s.notes[id], s.pcs, s.resetUsed);
    assert MappedOK(id, s.core.slots[id], s.notes[id], s.core);
  }

  /** Holders that overlap on one key share one value. */
  lemma OverlappingHoldersShare(run: seq<System>, acts: seq<Action>, k: nat, t: nat, u: nat)
    requires Run(run, acts) && !UsesReset(acts) && k < |run|
    requires t < |run[k].pcs| && u < |run[k].pcs| && run[k].pcs[t].Holding? && run[k].pcs[u].Holding?
    requires run[k].pcs[t].key == run[k].pcs[u].key
    ensures run[k].pcs[t].id == run[k].pcs[u].id && run[k].pcs[t].value == run[k].pcs[u].value
  {
    HeldIsAwake(run, acts, k, t);
    HeldIsAwake(run, acts, k, u);
  }

  /** A goroutine counted as a holder of a busy slot is the one waking it; without Reset the slot is still
      the one its key maps to. */
  lemma CountedWhileBusy(run: seq<System>, acts: seq<Action>, k: nat, t: nat, i: nat)
    requires Run(run, acts) && k < |run| && i < |run[k].core.slots| && i < |run[k].notes|
    requires run[k].core.slots[i].state == Busy && t in run[k].notes[i].holders
    ensures t < |run[k].pcs| && run[k].pcs[t].Waking? && run[k].pcs[t].id == i && run[k].notes[i].holders == {t}
    ensures !UsesReset(acts) ==> Mapped(run[k].core, run[k].pcs[t].key, i)
  {
    hide Step;
    RunInv(run, acts, k);
    if !UsesReset(acts) { NotUsed(acts, k); }
    hide Consistent, RefOK, Run;
    var s := run[k];
    assert SlotOK(i, s.core.slots[i], s.notes[i], s.pcs, s.resetUsed);
    assert !s.resetUsed ==> MappedOK(i, s.core.slots[i], s.notes[i], s.core);
  }

  // ---------------------------------------------------------------- channels

  /** In every run: no channel is closed twice, and an open channel has one goroutine that will
      close it. A busy slot has one owner, and that owner will close the slot's ready channel. */
  lemma OneCloserPerChannel(run: seq<System>, acts: seq<Action>, k: nat)
    requires Run(run, acts) && k < |run|
    ensures var s := run[k];
            && !s.core.panicked
            && (forall c :: 0 <= c < |s.core.closed| && !s.core.closed[c] ==>
                  exists t :: 0 <= t < |s.pcs| && c in MustClose(s.pcs[t]))
            && (forall c, t, u :: 0 <= t < |s.pcs| && 0 <= u < |s.pcs| && c in MustClose(s.pcs[t]) && c in MustClose(s.pcs[u]) ==>
                  t == u && 0 <= c < |s.core.closed| && !s.core.closed[c])
            && (forall i :: 0 <= i < |s.core.slots| && s.core.slots[i].state == Busy ==> OwnedByOne(s, i))
  {
    hide Step;
    RunInv(run, acts, k);
    hide Consistent, RefOK, Run;
    var s := run[k];
    forall c | 0 <= c < |s.core.closed| && !s.core.closed[c] ensures exists t :: 0 <= t < |s.pcs| && c in MustClose(s.pcs[t]) {
      assert ChanOK(c, s.core.closed[c], s.closer[c], s.pcs);
    }
    forall c, t, u | 0 <= t < |s.pcs| && 0 <= u < |s.pcs| && c in MustClose(s.pcs[t]) && c in MustClose(s.pcs[u])
      ensures t == u && c < |s.core.closed| && !s.core.closed[c]
    {
      assert PcOK(s, t, s.pcs[t]);
      assert PcOK(s, u, s.pcs[u]);
    }
    forall i | 0 <= i < |s.core.slots| && s.core.slots[i].state == Busy ensures OwnedByOne(s, i) {
      BusyOwner(s, i);
    }
  }

  ghost predicate OwnedByOne(s: System, i: nat)
    requires i < |s.core.slots|
  {
    exists t :: 0 <= t < |s.pcs| && i in Owns(s.pcs[t]) && s.core.slots[i].ready in MustClose(s.pcs[t])
                && forall u :: 0 <= u < |s.pcs| && i in Owns(s.pcs[u]) ==> u == t
  }

  lemma BusyOwner(s: System, i: nat)
    requires Inv(s) && i < |s.core.slots| && s.core.slots[i].state == Busy
    ensures OwnedByOne(s, i)
  {
    hide Consistent, RefOK, MappedOK, ItemOK;
    assert SlotOK(i, s.core.slots[i], s.notes[i], s.pcs, s.resetUsed);
    var t := s.notes[i].owner.value;
    forall u | 0 <= u < |s.pcs| && i in Owns(s.pcs[u]) ensures u == t {
      assert PcOK(s, u, s.pcs[u]);
      assert i in Mentions(s.pcs[u]);
    }
  }
}
