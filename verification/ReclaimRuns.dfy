/** What holds of every run of the reclaim table. */
module ReclaimRuns {
  import opened Basics
  import opened AliasLinks
  import opened ReclaimCore
  import opened ReclaimSystem
  import opened ReclaimInvariant
  import opened ReclaimFrame
  import opened ReclaimSteps
  import opened ReclaimWideSteps

  // ---------------------------------------------------------------- every step keeps the invariant

  lemma LookupKeeps(s: System, t: nat)
    requires Inv(s) && t < |s.pcs| && s.pcs[t].Looking? && KeyIn(s, s.pcs[t].key)
    ensures Inv(LookupStep(s, t))
  {
    hide Inv;
    if s.pcs[t].key !in s.core.items { CreateKeeps(s, t); }
    else {
      match s.core.slots[s.core.items[s.pcs[t].key]].state
      case Awake => BindKeeps(s, t);
      case Asleep => WakeKeeps(s, t);
      case Busy => ParkKeeps(s, t);
      case Gone => RetryKeeps(s, t);
    }
  }

  /** A goroutine's copy of the stored flags agrees with the slot it owns. */
  lemma OwnedSlot(s: System, t: nat)
    requires Inv(s) && t < |s.pcs| && (s.pcs[t].Waking? || s.pcs[t].Sleeping?)
    ensures SlotIn(s, s.pcs[t].id) && s.core.slots[s.pcs[t].id].enforce == s.pcs[t].enforce
    ensures s.pcs[t].Waking? ==> s.core.slots[s.pcs[t].id].value == s.pcs[t].value
  {
    hide SlotOK, Consistent, RefOK;
    assert PcOK(s, t, s.pcs[t]);
    assert s.pcs[t].id in Mentions(s.pcs[t]);
    Settled(s, s.pcs[t].id);
  }

  lemma PanicStepKeeps(s: System, t: nat)
    requires Inv(s) && t < |s.pcs| && (s.pcs[t].Waking? || s.pcs[t].Sleeping?) && SlotIn(s, s.pcs[t].id)
    ensures Inv(if s.pcs[t].Waking? then WakeFailStep(s, t) else SleepFailStep(s, t))
  {
    OwnedSlot(s, t);
    hide Inv;
    var pc := s.pcs[t];
    var e, err := if pc.Waking? then WakePanic else SleepPanic, if pc.Waking? then Some(WakePanicked) else None;
    if pc.enforce { SwapKeeps(s, t, pc.key, pc.id, pc.ch, e, err); }
    else { PanicKeeps(s, t, pc.key, pc.id, pc.ch, e, err); }
  }

  lemma SleepOkKeeps(s: System, t: nat)
    requires Inv(s) && t < |s.pcs| && s.pcs[t].Sleeping? && SlotIn(s, s.pcs[t].id)
    ensures Inv(SleepOkStep(s, t))
  {
    hide Inv;
    if s.pcs[t].enforce && s.core.grace <= 0 { SleepCloseKeeps(s, t); }
    else if s.core.grace > 0 && Mapped(s.core, s.pcs[t].key, s.pcs[t].id) { SleepArmKeeps(s, t); }
    else { SleepExpireKeeps(s, t); }
  }

  lemma ClaimStepKeeps(s: System, t: nat)
    requires Inv(s) && t < |s.pcs| && s.pcs[t].Dropping? && SlotIn(s, s.pcs[t].id)
    ensures Inv(ClaimStep(s, t))
  {
    hide Inv;
    var sl := s.core.slots[s.pcs[t].id];
    if sl.state == Awake && sl.holders == 0 { ClaimKeeps(s, t); } else { ClaimStopKeeps(s, t); }
  }

  lemma ExpiryKeeps(s: System, t: nat)
    requires Inv(s) && t < |s.pcs| && s.pcs[t].Expiring? && SlotIn(s, s.pcs[t].id)
    ensures Inv(ExpiryStep(s, t))
  {
    hide Inv;
    var sl := s.core.slots[s.pcs[t].id];
    if sl.state != Asleep { ExpireSkipKeeps(s, t); }
    else if sl.enforce { ExpireEnforceKeeps(s, t); }
    else { ExpireBareKeeps(s, t); }
  }

  lemma ResetNextKeeps(s: System, t: nat, id: nat)
    requires Inv(s) && t < |s.pcs| && s.pcs[t].Resetting? && id in s.pcs[t].todo && SlotIn(s, id)
    ensures Inv(ResetNextStep(s, t, id))
  {
    hide Inv;
    match s.core.slots[id].state
    case Awake => ResetAwakeKeeps(s, t, id);
    case Asleep => ResetAsleepKeeps(s, t, id);
    case _ => ResetSkipKeeps(s, t, id);
  }

  /** The transition system: some action is taken. */
  lemma StepKeeps(s: System, a: Action, r: System)
    requires Inv(s) && Step(s, a, r)
    ensures Inv(r)
  {
    hide Inv, Move, SetAlias, Watch, DropWatcher, ClearPublisher, ResetStartStep;
    match a
    case Spawn(key) => SpawnKeeps(s, r, key);
    case ResetStart(order) => ResetStartKeeps(s, order);
    case DoSetAlias(key, alias, publisher, group) => SetAliasStepKeeps(s, r, key, alias, publisher, group);
    case DoWatch(alias, empty, wid) => LinksKeep(s, a, r);
    case DoDropWatcher(alias, wid) => LinksKeep(s, a, r);
    case DoClearPublisher(publisher, group) => LinksKeep(s, a, r);
    case _ => MoveKeeps(s, a, r);
  }

  lemma LinksKeep(s: System, a: Action, r: System)
    requires Inv(s) && Step(s, a, r) && (a.DoWatch? || a.DoDropWatcher? || a.DoClearPublisher?)
    ensures Inv(r)
  {
    hide SlotOK, PcOK, ChanOK, ItemOK, MappedOK, RefOK, Move, Watch, DropWatcher, ClearPublisher, Consistent, AllAgree;
    var l := s.core.links;
    if a.DoWatch? { WatchKeeps(l, a.alias, a.empty, a.wid); WatchPoints(l, a.alias, a.empty, a.wid); }
    else if a.DoDropWatcher? { DropWatcherKeeps(l, a.alias, a.wid); DropPoints(l, a.alias, a.wid); }
    else { ClearPublisherKeeps(l, a.publisher, a.group); ClearPoints(l, a.publisher, a.group); }
    AliasKeeps(s, r);
  }

  lemma MoveKeeps(s: System, a: Action, r: System)
    requires a.Lookup? || a.Replay? || a.CreateOk? || a.CreateFail? || a.WakeOk? || a.WakeFail? || a.Release?
          || a.Forsake? || a.Claim? || a.Unpark? || a.SleepOk? || a.SleepFail? || a.CloseOld? || a.CloserClosed?
          || a.MappedClosed? || a.BareClosed? || a.CloseReady? || a.Fire? || a.Expire? || a.ResetNext?
          || a.ResetSlept? || a.ResetClosed?
    requires Inv(s) && a.t < |s.pcs| && Move(s, a, r)
    ensures Inv(r)
  {
    hide Inv;
    match a
    case Lookup(t) => LookupKeeps(s, t);
    case Replay(t) => ReplayKeeps(s, t);
    case CreateOk(t, value, enforce) => CreateOkKeeps(s, t, value, enforce);
    case CreateFail(t) => CreateFailKeeps(s, t);
    case WakeOk(t) => WakeOkKeeps(s, t);
    case WakeFail(t) => PanicStepKeeps(s, t);
    case Release(t) => ReleaseKeeps(s, t);
    case Forsake(t) => ForsakeKeeps(s, t);
    case Claim(t) => ClaimStepKeeps(s, t);
    case Unpark(t) => UnparkKeeps(s, t);
    case SleepOk(t) => SleepOkKeeps(s, t);
    case SleepFail(t) => PanicStepKeeps(s, t);
    case CloseOld(t) => CloseOldKeeps(s, t);
    case CloserClosed(t) => CloserClosedKeeps(s, t);
    case MappedClosed(t) => MappedClosedKeeps(s, t);
    case BareClosed(t) => BareClosedKeeps(s, t);
    case CloseReady(t) => CloseReadyKeeps(s, t);
    case Fire(t) => FireKeeps(s, t);
    case Expire(t) => ExpiryKeeps(s, t);
    case ResetNext(t, id) => ResetNextKeeps(s, t, id);
    case ResetSlept(t, panics) => ResetSleptKeeps(s, t, panics);
    case ResetClosed(t) => ResetClosedKeeps(s, t);
  }

  // ---------------------------------------------------------------- runs

  /** A run: states with the actions between them, starting from a new table. */
  ghost predicate Run(run: seq<System>, acts: seq<Action>) {
    && |run| == |acts| + 1
    && (exists grace :: run[0] == Init(grace))
    && (forall k :: 0 <= k < |acts| ==> Step(run[k], acts[k], run[k + 1]))
  }

  ghost predicate UsesReset(acts: seq<Action>) {
    exists k :: 0 <= k < |acts| && acts[k].ResetStart?
  }

  lemma {:induction false} RunInv(run: seq<System>, acts: seq<Action>, k: nat)
    requires Run(run, acts) && k < |run|
    ensures Inv(run[k])
    ensures run[k].resetUsed ==> UsesReset(acts[..k])
  {
    hide Inv, Step;
    if k == 0 {
      InitInv(run[0]);
    } else {
      RunInv(run, acts, k - 1);
      StepKeeps(run[k - 1], acts[k - 1], run[k]);
      OnlyResetResets(run[k - 1], acts[k - 1], run[k]);
      if UsesReset(acts[..k - 1]) {
        var j :| 0 <= j < k - 1 && acts[..k - 1][j].ResetStart?;
        assert acts[..k][j].ResetStart?;
      } else if run[k].resetUsed {
        assert acts[..k][k - 1].ResetStart?;
      }
    }
  }

  lemma InitInv(s: System)
    requires exists grace :: s == Init(grace)
    ensures Inv(s) && !s.resetUsed
  {
    forall id: nat ensures ListsItsEntries(NoLinks, id) { }
  }

  lemma OnlyResetResets(s: System, a: Action, r: System)
    requires Step(s, a, r)
    ensures r.resetUsed ==> s.resetUsed || a.ResetStart?
  {
  }

  // ---------------------------------------------------------------- hook order

  function Cycles(n: nat): seq<Event> {
    if n == 0 then [] else Cycles(n - 1) + [SleepBegin, SleepEnd, WakeBegin, WakeEnd]
  }

  /** The three ways a life ends, after any number of sleep-and-wake cycles. */
  ghost predicate IsEnding(w: seq<Event>) {
    || w == [SleepBegin, SleepEnd, CloseBegin, CloseEnd]
    || w == [SleepBegin, SleepEnd, WakeBegin, WakePanic, CloseBegin, CloseEnd]
    || w == [SleepBegin, SleepPanic, CloseBegin, CloseEnd]
  }

  ghost predicate IsLife(tr: seq<Event>, n: nat, w: seq<Event>) {
    IsEnding(w) && tr <= Cycles(n) + w
  }

  /** What may follow the completed cycles in each phase. */
  ghost predicate IsTail(p: Phase, w: seq<Event>) {
    match p
    case Up => w == []
    case InSleep => w == [SleepBegin]
    case Down => w == [SleepBegin, SleepEnd]
    case InWake => w == [SleepBegin, SleepEnd, WakeBegin]
    case Broken => w == [SleepBegin, SleepPanic] || w == [SleepBegin, SleepEnd, WakeBegin, WakePanic]
    case InClose => w == [SleepBegin, SleepEnd, CloseBegin] || w == [SleepBegin, SleepPanic, CloseBegin]
                    || w == [SleepBegin, SleepEnd, WakeBegin, WakePanic, CloseBegin]
    case Ended => IsEnding(w)
    case Illegal => false
  }

  lemma {:induction false} PhaseForm(tr: seq<Event>) returns (n: nat, w: seq<Event>)
    requires PhaseOf(tr) != Illegal
    ensures tr == Cycles(n) + w && IsTail(PhaseOf(tr), w)
  {
    if tr == [] {
      n, w := 0, [];
    } else {
      var e := tr[|tr| - 1];
      var rest := tr[..|tr| - 1];
      n, w := PhaseForm(rest);
      assert tr == Cycles(n) + (w + [e]);
      if e == WakeEnd {
        assert w + [e] == [SleepBegin, SleepEnd, WakeBegin, WakeEnd];
        n, w := n + 1, [];
        assert tr == Cycles(n) + w;
      } else {
        w := w + [e];
      }
    }
  }

  /** In every run, Reset included, an incarnation's hook calls are a prefix of a legal life: hooks
      never overlap, sleep and wake alternate, and nothing follows Close. */
  lemma HookOrder(run: seq<System>, acts: seq<Action>, k: nat, i: nat)
    requires Run(run, acts) && k < |run| && i < |run[k].notes|
    ensures exists n, w :: IsLife(run[k].notes[i].trace, n, w)
  {
    RunInv(run, acts, k);
    var s := run[k];
    var tr := s.notes[i].trace;
    LegalPhase(s, i);
    var n, w := PhaseForm(tr);
    var whole := Completed(w, PhaseOf(tr));
    assert tr <= Cycles(n) + whole;
    assert IsLife(tr, n, whole);
  }

  lemma LegalPhase(s: System, i: nat)
    requires Inv(s) && i < |s.notes|
    ensures PhaseOf(s.notes[i].trace) != Illegal
  {
    hide PcOK, Consistent, RefOK, ItemOK, MappedOK;
    assert SlotOK(i, s.core.slots[i], s.notes[i], s.pcs, s.resetUsed);
  }

  /** A full life that starts with the given tail. */
  function Completed(w: seq<Event>, p: Phase): (r: seq<Event>)
    requires IsTail(p, w)
    ensures IsEnding(r) && w <= r
  {
    if |w| >= 2 && w[1] == SleepPanic then [SleepBegin, SleepPanic, CloseBegin, CloseEnd]
    else if |w| >= 3 && w[2] == WakeBegin then [SleepBegin, SleepEnd, WakeBegin, WakePanic, CloseBegin, CloseEnd]
    else [SleepBegin, SleepEnd, CloseBegin, CloseEnd]
  }
}
