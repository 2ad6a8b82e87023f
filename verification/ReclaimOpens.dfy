/** What an Open gets: the value its incarnation was created with, or the error of the create or Wake it waited
    for. */
module ReclaimOpens {
  import opened Basics
  import opened AliasLinks
  import opened ReclaimCore
  import opened ReclaimSystem
  import opened ReclaimInvariant
  import opened ReclaimSteps
  import opened ReclaimRuns
  import opened ReclaimSafety

  // ---------------------------------------------------------------- what a lookup finds

  /** Open under the lock: an empty key is taken for a create, an awake value is bound, a sleeping one is woken on
      a channel of its own with its timer stopped, a busy one is waited for, and an ended one is unmapped to look
      again. */
  lemma OpenDecides(run: seq<System>, acts: seq<Action>, i: nat, t: nat)
    requires Run(run, acts) && i < |acts| && acts[i] == Lookup(t)
    ensures t < |run[i].pcs| && run[i].pcs[t].Looking? && t < |run[i + 1].pcs|
    ensures var s, r := run[i], run[i + 1];
            var key := s.pcs[t].key; var pc := r.pcs[t];
            if key !in s.core.items then
              && pc == Creating(key, |s.core.slots|, |s.core.closed|) && Mapped(r.core, key, |s.core.slots|)
              && |r.core.slots| == |s.core.slots| + 1 && r.core.slots[|s.core.slots|].state == Busy
            else
              var id := s.core.items[key];
              id < |s.core.slots| && id < |r.core.slots| &&
              match s.core.slots[id].state
              case Awake => pc == Holding(key, id, s.core.slots[id].value) && r.core.slots[id].holders == s.core.slots[id].holders + 1
                            && r.core.slots[id].state == Awake && Mapped(r.core, key, id)
              case Asleep => pc == Waking(key, id, |s.core.closed|, s.core.slots[id].value, s.core.slots[id].enforce)
                             && r.core.slots[id].state == Busy && r.core.slots[id].timer.None? && Mapped(r.core, key, id)
                             && r.core.slots[id].holders == s.core.slots[id].holders + 1
              case Busy => pc == Parked(key, id, s.core.slots[id].ready) && r.core == s.core
              case Gone => pc == Looking(key) && key !in r.core.items && run[i].resetUsed
  {
    RunInv(run, acts, i);
    assert Step(run[i], acts[i], run[i + 1]);
    GoneNeedsReset(run[i]);
    hide Inv;
    LookedUp(run[i], t);
  }

  lemma GoneNeedsReset(s: System)
    requires Inv(s)
    ensures forall k :: k in s.core.items ==> s.core.items[k] < |s.core.slots| && (s.core.slots[s.core.items[k]].state == Gone ==> s.resetUsed)
  {
    hide Consistent, RefOK, SlotOK, PcOK, MappedOK;
    forall k | k in s.core.items ensures s.core.items[k] < |s.core.slots| && (s.core.slots[s.core.items[k]].state == Gone ==> s.resetUsed) {
      assert ItemOK(k, s.core.items[k], s);
    }
  }

  lemma LookedUp(s: System, t: nat)
    requires t < |s.pcs| && s.pcs[t].Looking? && KeyIn(s, s.pcs[t].key)
    ensures var r := LookupStep(s, t);
            var key := s.pcs[t].key;
            t < |r.pcs| &&
            if key !in s.core.items then
              && r.pcs[t] == Creating(key, |s.core.slots|, |s.core.closed|) && Mapped(r.core, key, |s.core.slots|)
              && |r.core.slots| == |s.core.slots| + 1 && r.core.slots[|s.core.slots|].state == Busy
            else
              var id := s.core.items[key];
              id < |s.core.slots| && id < |r.core.slots| &&
              match s.core.slots[id].state
              case Awake => r.pcs[t] == Holding(key, id, s.core.slots[id].value) && r.core.slots[id].holders == s.core.slots[id].holders + 1
                            && r.core.slots[id].state == Awake && Mapped(r.core, key, id)
              case Asleep => r.pcs[t] == Waking(key, id, |s.core.closed|, s.core.slots[id].value, s.core.slots[id].enforce)
                             && r.core.slots[id].state == Busy && r.core.slots[id].timer.None? && Mapped(r.core, key, id)
                             && r.core.slots[id].holders == s.core.slots[id].holders + 1
              case Busy => r.pcs[t] == Parked(key, id, s.core.slots[id].ready) && r.core == s.core
              case Gone => r.pcs[t] == Looking(key) && key !in r.core.items
  {
  }

  // ---------------------------------------------------------------- what is stored, and when it fails

  predicate Puts(s: System, a: Action, id: nat) {
    a.CreateOk? && a.t < |s.pcs| && s.pcs[a.t].Creating? && s.pcs[a.t].id == id
  }

  predicate FailsCreate(s: System, a: Action, id: nat) {
    a.CreateFail? && a.t < |s.pcs| && s.pcs[a.t].Creating? && s.pcs[a.t].id == id
  }

  predicate FailsWake(s: System, a: Action, id: nat) {
    a.WakeFail? && a.t < |s.pcs| && s.pcs[a.t].Waking? && s.pcs[a.t].id == id
  }

  /** Whoever moves a slot finds it busy, and a slot that has not ended carries no error. */
  ghost predicate Ready(s: System) {
    && |s.notes| == |s.core.slots|
    && (forall t :: 0 <= t < |s.pcs| && (s.pcs[t].Creating? || s.pcs[t].Waking? || s.pcs[t].Sleeping?) ==>
          s.pcs[t].id < |s.core.slots| && s.core.slots[s.pcs[t].id].state == Busy)
    && (forall i :: 0 <= i < |s.core.slots| && s.core.slots[i].state != Gone ==> s.core.slots[i].createErr.None?)
  }

  /** What one step does to a slot's life. */
  ghost predicate LifeOf(s: System, a: Action, r: System, i: nat)
    requires i < |s.core.slots| && i < |r.core.slots| && i < |s.notes| && i < |r.notes|
  {
    && r.core.slots[i].createErr == (if FailsCreate(s, a, i) then Some(CreateFailed) else if FailsWake(s, a, i) then Some(WakePanicked)
                                     else s.core.slots[i].createErr)
    && (s.core.slots[i].state == Gone || FailsCreate(s, a, i) || FailsWake(s, a, i) ==> r.core.slots[i].state == Gone)
    && (r.notes[i].put <==> s.notes[i].put || Puts(s, a, i))
    && (Puts(s, a, i) ==> r.core.slots[i].value == a.value && r.core.slots[i].enforce == a.enforce)
  }

  ghost predicate Lives(s: System, a: Action, r: System) {
    && |s.core.slots| == |s.notes| && |r.core.slots| == |r.notes| && |s.core.slots| <= |r.core.slots|
    && (forall i :: 0 <= i < |s.core.slots| ==> LifeOf(s, a, r, i))
    && (forall i :: |s.core.slots| <= i < |r.core.slots| ==> r.core.slots[i].createErr.None? && !r.notes[i].put)
  }

  lemma LookupLives(s: System, t: nat)
    requires Ready(s) && t < |s.pcs| && s.pcs[t].Looking? && KeyIn(s, s.pcs[t].key)
    ensures Lives(s, Lookup(t), LookupStep(s, t))
  {
    hide Unbind;
  }

  lemma PutLives(s: System, t: nat, value: Value, enforce: bool)
    requires Ready(s) && t < |s.pcs| && s.pcs[t].Creating? && SlotIn(s, s.pcs[t].id)
    ensures Lives(s, CreateOk(t, value, enforce), CreateOkStep(s, t, value, enforce))
  {
    hide Unbind;
  }

  lemma FailLives(s: System, t: nat)
    requires Ready(s) && t < |s.pcs| && s.pcs[t].Creating? && SlotIn(s, s.pcs[t].id)
    ensures Lives(s, CreateFail(t), CreateFailStep(s, t))
  {
    hide Unbind;
  }

  lemma WakeLives(s: System, t: nat)
    requires Ready(s) && t < |s.pcs| && s.pcs[t].Waking? && SlotIn(s, s.pcs[t].id)
    ensures Lives(s, WakeOk(t), WakeOkStep(s, t))
  {
    hide Unbind;
  }

  lemma WakePanicLives(s: System, t: nat)
    requires Ready(s) && t < |s.pcs| && s.pcs[t].Waking? && SlotIn(s, s.pcs[t].id)
    ensures Lives(s, WakeFail(t), WakeFailStep(s, t))
  {
    hide Unbind;
  }

  lemma SleepPanicLives(s: System, t: nat)
    requires Ready(s) && t < |s.pcs| && s.pcs[t].Sleeping? && SlotIn(s, s.pcs[t].id)
    ensures Lives(s, SleepFail(t), SleepFailStep(s, t))
  {
    hide Unbind;
  }

  lemma ReleaseLives(s: System, t: nat)
    requires Ready(s) && t < |s.pcs| && s.pcs[t].Holding? && SlotIn(s, s.pcs[t].id)
    ensures Lives(s, Release(t), ReleaseStep(s, t))
  {
    hide Unbind;
  }

  lemma ClaimLives(s: System, t: nat)
    requires Ready(s) && t < |s.pcs| && s.pcs[t].Dropping? && SlotIn(s, s.pcs[t].id)
    ensures Lives(s, Claim(t), ClaimStep(s, t))
  {
    hide Unbind;
  }

  lemma SleepLives(s: System, t: nat)
    requires Ready(s) && t < |s.pcs| && s.pcs[t].Sleeping? && SlotIn(s, s.pcs[t].id)
    ensures Lives(s, SleepOk(t), SleepOkStep(s, t))
  {
    hide ParkAsleep;
    ParkTouchesOne(s.core, s.pcs[t].key, s.pcs[t].id, s.core.grace, |s.pcs|);
  }

  lemma CloseOldLives(s: System, t: nat)
    requires Ready(s) && t < |s.pcs| && s.pcs[t].Swapped? && SlotIn(s, s.pcs[t].id) && s.pcs[t].oldReady < |s.core.closed|
    ensures Lives(s, CloseOld(t), CloseOldStep(s, t))
  {
    hide Unbind;
  }

  lemma CloserLives(s: System, t: nat)
    requires Ready(s) && t < |s.pcs| && s.pcs[t].CloserClosing? && SlotIn(s, s.pcs[t].id) && SlotIn(s, s.pcs[t].closer)
    ensures Lives(s, CloserClosed(t), CloserClosedStep(s, t))
  {
    hide Unbind;
  }

  lemma MappedLives(s: System, t: nat)
    requires Ready(s) && t < |s.pcs| && s.pcs[t].MappedClosing? && SlotIn(s, s.pcs[t].id)
    ensures Lives(s, MappedClosed(t), MappedClosedStep(s, t))
  {
    hide Unbind;
  }

  lemma BareLives(s: System, t: nat)
    requires Ready(s) && t < |s.pcs| && s.pcs[t].BareClosing? && SlotIn(s, s.pcs[t].id)
    ensures Lives(s, BareClosed(t), BareClosedStep(s, t))
  {
    hide Unbind;
  }

  lemma ReadyLives(s: System, t: nat)
    requires Ready(s) && t < |s.pcs| && s.pcs[t].Unparking? && s.pcs[t].ch < |s.core.closed|
    ensures Lives(s, CloseReady(t), CloseReadyStep(s, t))
  {
    hide Unbind;
  }

  lemma ExpireLives(s: System, t: nat)
    requires Ready(s) && t < |s.pcs| && s.pcs[t].Expiring? && SlotIn(s, s.pcs[t].id)
    ensures Lives(s, Expire(t), ExpiryStep(s, t))
  {
    hide Unbind;
  }

  lemma ResetNextLives(s: System, t: nat, id: nat)
    requires Ready(s) && t < |s.pcs| && s.pcs[t].Resetting? && id in s.pcs[t].todo && SlotIn(s, id)
    ensures Lives(s, ResetNext(t, id), ResetNextStep(s, t, id))
  {
    hide Unbind;
  }

  lemma ResetSleptLives(s: System, t: nat, panics: bool)
    requires Ready(s) && t < |s.pcs| && s.pcs[t].ResetSleeping? && SlotIn(s, s.pcs[t].id)
    ensures Lives(s, ResetSlept(t, panics), ResetSleptStep(s, t, panics))
  {
    hide Unbind;
  }

  lemma ResetClosedLives(s: System, t: nat)
    requires Ready(s) && t < |s.pcs| && s.pcs[t].ResetClosing? && SlotIn(s, s.pcs[t].id)
    ensures Lives(s, ResetClosed(t), ResetClosedStep(s, t))
  {
    hide Unbind;
  }

  /** Nothing but goroutines and links changes. */
  lemma PlainLives(s: System, a: Action, r: System)
    requires Ready(s) && r.core.slots == s.core.slots && r.notes == s.notes && !a.CreateOk? && !a.CreateFail? && !a.WakeFail?
    ensures Lives(s, a, r)
  {
  }

  lemma ResetStartLives(s: System, order: seq<nat>)
    requires Ready(s)
    ensures Lives(s, ResetStart(order), ResetStartStep(s, order))
  {
    hide Unbind, UnbindAll, StopAll;
  }

  lemma MoveLives(s: System, a: Action, r: System)
    requires a.Lookup? || a.Replay? || a.CreateOk? || a.CreateFail? || a.WakeOk? || a.WakeFail? || a.Release?
          || a.Forsake? || a.Claim? || a.Unpark? || a.SleepOk? || a.SleepFail? || a.CloseOld? || a.CloserClosed?
          || a.MappedClosed? || a.BareClosed? || a.CloseReady? || a.Fire? || a.Expire? || a.ResetNext?
          || a.ResetSlept? || a.ResetClosed?
    requires Ready(s) && a.t < |s.pcs| && Move(s, a, r)
    ensures Lives(s, a, r)
  {
    hide Ready, Lives, LookupStep, CreateOkStep, CreateFailStep, WakeOkStep, WakeFailStep, ReleaseStep, ClaimStep,
      SleepOkStep, SleepFailStep, CloseOldStep, CloserClosedStep, MappedClosedStep, BareClosedStep, CloseReadyStep, ExpiryStep,
      ResetNextStep, ResetSleptStep, ResetClosedStep;
    match a
    case Lookup(t) => LookupLives(s, t);
    case CreateOk(t, value, enforce) => PutLives(s, t, value, enforce);
    case CreateFail(t) => FailLives(s, t);
    case WakeOk(t) => WakeLives(s, t);
    case WakeFail(t) => WakePanicLives(s, t);
    case Release(t) => ReleaseLives(s, t);
    case Claim(t) => ClaimLives(s, t);
    case SleepOk(t) => SleepLives(s, t);
    case SleepFail(t) => SleepPanicLives(s, t);
    case CloseOld(t) => CloseOldLives(s, t);
    case CloserClosed(t) => CloserLives(s, t);
    case MappedClosed(t) => MappedLives(s, t);
    case BareClosed(t) => BareLives(s, t);
    case CloseReady(t) => ReadyLives(s, t);
    case Expire(t) => ExpireLives(s, t);
    case ResetNext(t, id) => ResetNextLives(s, t, id);
    case ResetSlept(t, panics) => ResetSleptLives(s, t, panics);
    case ResetClosed(t) => ResetClosedLives(s, t);
    case _ => PlainLives(s, a, r);
  }

  lemma StepLives(s: System, a: Action, r: System)
    requires Ready(s) && Step(s, a, r)
    ensures Lives(s, a, r)
  {
    hide Ready, Lives, Move, SetAlias, Watch, DropWatcher, ClearPublisher, ResetStartStep;
    match a
    case Spawn(_) => PlainLives(s, a, r);
    case ResetStart(order) => ResetStartLives(s, order);
    case DoSetAlias(_, _, _, _) => PlainLives(s, a, r);
    case DoWatch(_, _, _) => PlainLives(s, a, r);
    case DoDropWatcher(_, _) => PlainLives(s, a, r);
    case DoClearPublisher(_, _) => PlainLives(s, a, r);
    case _ => MoveLives(s, a, r);
  }

  ghost predicate NoErrors(s: System) {
    forall i :: 0 <= i < |s.core.slots| && s.core.slots[i].state != Gone ==> s.core.slots[i].createErr.None?
  }

  lemma IsReady(s: System)
    requires Inv(s) && NoErrors(s)
    ensures Ready(s)
  {
    hide Consistent, RefOK, ItemOK, MappedOK;
    forall t | 0 <= t < |s.pcs| && (s.pcs[t].Creating? || s.pcs[t].Waking? || s.pcs[t].Sleeping?)
      ensures s.pcs[t].id < |s.core.slots| && s.core.slots[s.pcs[t].id].state == Busy
    {
      var id := s.pcs[t].id;
      assert PcOK(s, t, s.pcs[t]);
      assert id in Mentions(s.pcs[t]);
      assert SlotOK(id, s.core.slots[id], s.notes[id], s.pcs, s.resetUsed);
    }
  }

  lemma KeepsNoErrors(s: System, a: Action, r: System)
    requires NoErrors(s) && Lives(s, a, r)
    ensures NoErrors(r)
  {
    forall i | 0 <= i < |r.core.slots| && r.core.slots[i].state != Gone ensures r.core.slots[i].createErr.None? {
      if i < |s.core.slots| { assert LifeOf(s, a, r, i); }
    }
  }

  lemma {:induction false} RunLives(run: seq<System>, acts: seq<Action>, k: nat)
    requires Run(run, acts) && k < |run|
    ensures NoErrors(run[k]) && (k < |acts| ==> Lives(run[k], acts[k], run[k + 1]))
  {
    hide Step, Inv, NoErrors, Lives, Ready;
    if k == 0 { StartsEmpty(run[0]); }
    else {
      RunLives(run, acts, k - 1);
      KeepsNoErrors(run[k - 1], acts[k - 1], run[k]);
    }
    if k < |acts| {
      RunInv(run, acts, k);
      IsReady(run[k]);
      StepLives(run[k], acts[k], run[k + 1]);
    }
  }

  lemma StartsEmpty(s: System)
    requires exists grace :: s == Init(grace)
    ensures NoErrors(s) && s.core.slots == [] && s.notes == []
  {
  }

  // ---------------------------------------------------------------- over whole runs

  /** Incarnation id's create failed, respectively its Wake panicked, before state k. */
  ghost predicate CreateBroke(run: seq<System>, acts: seq<Action>, id: nat, k: nat) {
    exists j: nat :: j < k && j < |acts| && j < |run| && FailsCreate(run[j], acts[j], id)
  }

  ghost predicate WakeBroke(run: seq<System>, acts: seq<Action>, id: nat, k: nat) {
    exists j: nat :: j < k && j < |acts| && j < |run| && FailsWake(run[j], acts[j], id)
  }

  lemma BrokenWasThere(run: seq<System>, acts: seq<Action>, j: nat, id: nat)
    requires Run(run, acts) && j < |acts|
    ensures FailsCreate(run[j], acts[j], id) || FailsWake(run[j], acts[j], id) || Puts(run[j], acts[j], id) ==> id < |run[j].core.slots|
  {
    hide Step, Inv, NoErrors;
    RunInv(run, acts, j);
    RunLives(run, acts, j);
    IsReady(run[j]);
  }

  lemma NoneBefore(run: seq<System>, acts: seq<Action>, id: nat, k: nat)
    requires Run(run, acts) && k < |acts| && id >= |run[k].core.slots|
    ensures !CreateBroke(run, acts, id, k + 1) && !WakeBroke(run, acts, id, k + 1)
    ensures forall j: nat :: j <= k ==> !Puts(run[j], acts[j], id)
  {
    hide Step, Inv, FailsCreate, FailsWake, Puts, Older;
    forall j: nat | j <= k ensures !FailsCreate(run[j], acts[j], id) && !FailsWake(run[j], acts[j], id) && !Puts(run[j], acts[j], id) {
      RunLater(run, acts, j, k);
      BrokenWasThere(run, acts, j, id);
    }
  }

  /** An incarnation carries an error exactly if its create failed or its Wake panicked, and it is that one's. */
  lemma {:induction false} ErrorIsRecorded(run: seq<System>, acts: seq<Action>, id: nat, k: nat)
    requires Run(run, acts) && k < |run| && id < |run[k].core.slots|
    ensures run[k].core.slots[id].createErr.None? <==> !CreateBroke(run, acts, id, k) && !WakeBroke(run, acts, id, k)
    ensures run[k].core.slots[id].createErr == Some(CreateFailed) ==> CreateBroke(run, acts, id, k)
    ensures run[k].core.slots[id].createErr == Some(WakePanicked) ==> WakeBroke(run, acts, id, k)
    decreases k
  {
    hide Step, Inv, NoErrors, FailsCreate, FailsWake, Puts;
    StartsEmpty(run[0]);
    if k > 0 {
      RunLives(run, acts, k - 1);
      var s := run[k - 1];
      if id < |s.core.slots| {
        ErrorIsRecorded(run, acts, id, k - 1);
        assert LifeOf(s, acts[k - 1], run[k], id);
        BrokeNext(run, acts, id, k - 1);
      } else {
        NoneBefore(run, acts, id, k - 1);
      }
    }
  }

  lemma BrokeNext(run: seq<System>, acts: seq<Action>, id: nat, k: nat)
    requires k < |acts| && k < |run|
    ensures CreateBroke(run, acts, id, k + 1) <==> CreateBroke(run, acts, id, k) || FailsCreate(run[k], acts[k], id)
    ensures WakeBroke(run, acts, id, k + 1) <==> WakeBroke(run, acts, id, k) || FailsWake(run[k], acts[k], id)
  {
    hide FailsCreate, FailsWake;
  }

  /** A woken waiter gives up with the error of the create or Wake it waited for exactly if that one failed; otherwise
      it looks its key up again. */
  lemma WaiterHears(run: seq<System>, acts: seq<Action>, k: nat, t: nat)
    requires Run(run, acts) && k < |acts| && acts[k] == Replay(t)
    ensures t < |run[k].pcs| && run[k].pcs[t].Parked? && t < |run[k + 1].pcs|
    ensures var Parked(key, id, _) := run[k].pcs[t];
            run[k + 1].pcs[t] == if CreateBroke(run, acts, id, k) || WakeBroke(run, acts, id, k) then Done else Looking(key)
    ensures run[k + 1].core == run[k].core
  {
    hide Inv, CreateBroke, WakeBroke;
    assert Step(run[k], acts[k], run[k + 1]);
    ErrorIsRecorded(run, acts, run[k].pcs[t].id, k);
  }

  ghost predicate PutBefore(run: seq<System>, acts: seq<Action>, id: nat, k: nat, sl: Slot) {
    exists j: nat :: j < k && j < |acts| && j < |run| && Puts(run[j], acts[j], id)
      && acts[j].value == sl.value && acts[j].enforce == sl.enforce
  }

  /** What a slot holds is what its own create returned, flag and value, from the put on. */
  lemma {:induction false} ValueIsCreated(run: seq<System>, acts: seq<Action>, id: nat, k: nat)
    requires Run(run, acts) && k < |run| && id < |run[k].core.slots|
    ensures id < |run[k].notes|
    ensures run[k].notes[id].put ==> PutBefore(run, acts, id, k, run[k].core.slots[id])
    decreases k
  {
    hide Step, Inv, NoErrors, FailsCreate, FailsWake, Puts;
    StartsEmpty(run[0]);
    if k > 0 {
      RunLives(run, acts, k - 1);
      var s := run[k - 1];
      if id < |s.core.slots| {
        RunLater(run, acts, k - 1, k);
        ValueIsCreated(run, acts, id, k - 1);
        assert LifeOf(s, acts[k - 1], run[k], id);
        assert Older(s.core.slots[id], s.notes[id], run[k].core.slots[id], run[k].notes[id]);
        PutNext(run, acts, id, k - 1);
      }
    }
  }

  lemma PutNext(run: seq<System>, acts: seq<Action>, id: nat, k: nat)
    requires k < |acts| && k < |run|
    ensures forall sl: Slot :: PutBefore(run, acts, id, k, sl) ==> PutBefore(run, acts, id, k + 1, sl)
    ensures forall sl: Slot :: Puts(run[k], acts[k], id) && acts[k].value == sl.value && acts[k].enforce == sl.enforce
              ==> PutBefore(run, acts, id, k + 1, sl)
  {
    hide Puts;
  }

  /** In every run, Reset included, whoever holds an incarnation holds the value its create returned. */
  lemma HolderHasCreated(run: seq<System>, acts: seq<Action>, k: nat, t: nat)
    requires Run(run, acts) && k < |run| && t < |run[k].pcs| && run[k].pcs[t].Holding?
    ensures exists j: nat :: j < k && j < |acts| && Puts(run[j], acts[j], run[k].pcs[t].id) && acts[j].value == run[k].pcs[t].value
  {
    hide Step, Puts;
    RunInv(run, acts, k);
    HeldWasPut(run[k], t);
    hide Inv;
    ValueIsCreated(run, acts, run[k].pcs[t].id, k);
  }

  lemma HeldWasPut(s: System, t: nat)
    requires Inv(s) && t < |s.pcs| && s.pcs[t].Holding?
    ensures var id := s.pcs[t].id;
            id < |s.core.slots| && id < |s.notes| && s.notes[id].put && s.core.slots[id].value == s.pcs[t].value
  {
    hide Consistent, RefOK, ItemOK, MappedOK;
    assert PcOK(s, t, s.pcs[t]);
    assert s.pcs[t].id in Mentions(s.pcs[t]);
    assert SlotOK(s.pcs[t].id, s.core.slots[s.pcs[t].id], s.notes[s.pcs[t].id], s.pcs, s.resetUsed);
  }

  /** A create that succeeds leaves its caller the holder of the value under the key, awake, with its waiters released;
      a Wake that returns leaves its caller the holder of the value that slept. */
  lemma OpenReturns(run: seq<System>, acts: seq<Action>, i: nat, t: nat)
    requires Run(run, acts) && i < |acts|
    requires acts[i] == WakeOk(t) || (acts[i].CreateOk? && acts[i].t == t)
    ensures t < |run[i].pcs| && t < |run[i + 1].pcs| && (run[i].pcs[t].Creating? || run[i].pcs[t].Waking?)
    ensures var c := run[i + 1].core; var id := run[i].pcs[t].id;
            && id < |run[i].core.slots| && id < |c.slots| && c.slots[id].state == Awake
            && run[i + 1].pcs[t] == Holding(run[i].pcs[t].key, id, if acts[i].CreateOk? then acts[i].value else run[i].pcs[t].value)
            && IsClosed(run[i + 1], run[i].core.slots[id].ready)
            && (acts[i].CreateOk? ==> Mapped(c, run[i].pcs[t].key, id) && c.slots[id].holders == run[i].core.slots[id].holders + 1)
  {
    assert Step(run[i], acts[i], run[i + 1]);
  }
}
