/** Which timer ends a grace: the one armed for it, unless a timer of an earlier sleep had already fired and its
    expiry has not run yet. */
module ReclaimFuses {
  import opened Basics
  import opened AliasLinks
  import opened ReclaimCore
  import opened ReclaimSystem
  import opened ReclaimInvariant
  import opened ReclaimRuns
  import opened ReclaimSafety
  import opened ReclaimGrace

  /** The goroutine is a timer for the slot, armed or fired. */
  predicate Fuse(pc: Pc, id: nat) { (pc.Armed? || pc.Expiring?) && pc.id == id }

  predicate Moving(pc: Pc) { pc.Creating? || pc.Waking? || pc.Sleeping? }

  /** An armed timer is the one its slot remembers, and a slot that is awake or on its way remembers none. */
  ghost predicate TimersOK(s: System) {
    && (forall t :: 0 <= t < |s.pcs| && s.pcs[t].Armed? ==> s.pcs[t].id < |s.core.slots| && s.core.slots[s.pcs[t].id].timer == Some(t))
    && (forall i :: 0 <= i < |s.core.slots| && s.core.slots[i].state == Awake ==> s.core.slots[i].timer.None?)
    && (forall t :: 0 <= t < |s.pcs| && Moving(s.pcs[t]) ==> s.pcs[t].id < |s.core.slots| && s.core.slots[s.pcs[t].id].timer.None?)
  }

  /** What one step does to the timers of the slots and to the goroutines. */
  ghost predicate TimersFollow(s: System, a: Action, r: System) {
    && |s.core.slots| <= |r.core.slots| && |s.pcs| <= |r.pcs|
    && (forall w :: 0 <= w < |r.pcs| && r.pcs[w].Armed? ==>
          || (w < |s.pcs| && s.pcs[w] == r.pcs[w])
          || (a.SleepOk? && w == |s.pcs| && a.t < |s.pcs| && s.pcs[a.t].Sleeping? && r.pcs[w].id == s.pcs[a.t].id
              && r.pcs[w].id < |r.core.slots| && r.core.slots[r.pcs[w].id].timer == Some(w)))
    && (forall w :: 0 <= w < |r.pcs| && r.pcs[w].Expiring? ==>
          || (w < |s.pcs| && s.pcs[w] == r.pcs[w])
          || (a == Fire(w) && w < |s.pcs| && s.pcs[w] == Armed(r.pcs[w].key, r.pcs[w].id))
          || (a == SleepOk(w) && w < |s.pcs| && s.pcs[w].Sleeping? && s.pcs[w].id == r.pcs[w].id))
  }

  ghost predicate Follows(s: System, a: Action, r: System) { TimersFollow(s, a, r) && TimersOK(r) }

  /** No two goroutines move one slot. */
  ghost predicate OneMover(s: System) {
    forall t, u :: 0 <= t < |s.pcs| && 0 <= u < |s.pcs| && Moving(s.pcs[t]) && Moving(s.pcs[u]) && s.pcs[t].id == s.pcs[u].id ==> t == u
  }

  lemma MoversDiffer(s: System)
    requires Inv(s)
    ensures OneMover(s)
  {
    hide Consistent, RefOK, SlotOK, ItemOK, MappedOK;
    forall t, u | 0 <= t < |s.pcs| && 0 <= u < |s.pcs| && Moving(s.pcs[t]) && Moving(s.pcs[u]) && s.pcs[t].id == s.pcs[u].id
      ensures t == u
    {
      var p, q := s.pcs[t], s.pcs[u];
      assert PcOK(s, t, p) && PcOK(s, u, q);
      assert p.id in Mentions(p) && q.id in Mentions(q) && p.id in Owns(p) && q.id in Owns(q);
    }
  }

  lemma LookupCreates(s: System, t: nat)
    requires TimersOK(s) && OneMover(s) && t < |s.pcs| && s.pcs[t].Looking? && KeyIn(s, s.pcs[t].key) && s.pcs[t].key !in s.core.items
    ensures Follows(s, Lookup(t), LookupStep(s, t))
  {
    hide Unbind;
  }

  lemma LookupWakes(s: System, t: nat)
    requires TimersOK(s) && OneMover(s) && t < |s.pcs| && s.pcs[t].Looking? && KeyIn(s, s.pcs[t].key) && s.pcs[t].key in s.core.items
             && s.core.slots[s.core.items[s.pcs[t].key]].state == Asleep
    ensures Follows(s, Lookup(t), LookupStep(s, t))
  {
    hide Unbind;
  }

  lemma LookupBinds(s: System, t: nat)
    requires TimersOK(s) && OneMover(s) && t < |s.pcs| && s.pcs[t].Looking? && KeyIn(s, s.pcs[t].key) && s.pcs[t].key in s.core.items
             && s.core.slots[s.core.items[s.pcs[t].key]].state != Asleep
    ensures Follows(s, Lookup(t), LookupStep(s, t))
  {
    hide Unbind;
  }

  lemma LookupFollows(s: System, t: nat)
    requires TimersOK(s) && OneMover(s) && t < |s.pcs| && s.pcs[t].Looking? && KeyIn(s, s.pcs[t].key)
    ensures Follows(s, Lookup(t), LookupStep(s, t))
  {
    hide TimersOK, Follows, OneMover, LookupStep;
    if s.pcs[t].key !in s.core.items { LookupCreates(s, t); }
    else if s.core.slots[s.core.items[s.pcs[t].key]].state == Asleep { LookupWakes(s, t); }
    else { LookupBinds(s, t); }
  }

  /** A goroutine goes on without touching the table. */
  lemma PlainFollows(s: System, a: Action, t: nat, pc: Pc)
    requires TimersOK(s) && t < |s.pcs| && !pc.Armed? && !pc.Expiring? && !Moving(pc)
    ensures Follows(s, a, Goto(s, t, pc))
  {
  }

  lemma PutFollows(s: System, t: nat, value: Value, enforce: bool)
    requires TimersOK(s) && OneMover(s) && t < |s.pcs| && s.pcs[t].Creating? && SlotIn(s, s.pcs[t].id)
    ensures Follows(s, CreateOk(t, value, enforce), CreateOkStep(s, t, value, enforce))
  {
    hide Unbind;
  }

  lemma FailFollows(s: System, t: nat)
    requires TimersOK(s) && OneMover(s) && t < |s.pcs| && s.pcs[t].Creating? && SlotIn(s, s.pcs[t].id)
    ensures Follows(s, CreateFail(t), CreateFailStep(s, t))
  {
    hide Unbind;
  }

  lemma WakeFollows(s: System, t: nat)
    requires TimersOK(s) && OneMover(s) && t < |s.pcs| && s.pcs[t].Waking? && SlotIn(s, s.pcs[t].id)
    ensures Follows(s, WakeOk(t), WakeOkStep(s, t))
  {
    hide Unbind;
  }

  lemma WakePanicFollows(s: System, t: nat)
    requires TimersOK(s) && OneMover(s) && t < |s.pcs| && s.pcs[t].Waking? && SlotIn(s, s.pcs[t].id)
    ensures Follows(s, WakeFail(t), WakeFailStep(s, t))
  {
    hide Unbind;
  }

  lemma SleepPanicFollows(s: System, t: nat)
    requires TimersOK(s) && OneMover(s) && t < |s.pcs| && s.pcs[t].Sleeping? && SlotIn(s, s.pcs[t].id)
    ensures Follows(s, SleepFail(t), SleepFailStep(s, t))
  {
    hide Unbind;
  }

  lemma ReleaseFollows(s: System, t: nat)
    requires TimersOK(s) && OneMover(s) && t < |s.pcs| && s.pcs[t].Holding? && SlotIn(s, s.pcs[t].id)
    ensures Follows(s, Release(t), ReleaseStep(s, t))
  {
    hide Unbind;
  }

  lemma ClaimFollows(s: System, t: nat)
    requires TimersOK(s) && OneMover(s) && t < |s.pcs| && s.pcs[t].Dropping? && SlotIn(s, s.pcs[t].id)
    ensures Follows(s, Claim(t), ClaimStep(s, t))
  {
    hide Unbind;
  }

  lemma SleepArms(s: System, t: nat)
    requires TimersOK(s) && OneMover(s) && t < |s.pcs| && s.pcs[t].Sleeping? && SlotIn(s, s.pcs[t].id) && s.core.grace > 0 && Mapped(s.core, s.pcs[t].key, s.pcs[t].id)
    ensures Follows(s, SleepOk(t), SleepOkStep(s, t))
  {
    hide Unbind;
  }

  lemma SleepEnds(s: System, t: nat)
    requires TimersOK(s) && OneMover(s) && t < |s.pcs| && s.pcs[t].Sleeping? && SlotIn(s, s.pcs[t].id) && !(s.core.grace > 0 && Mapped(s.core, s.pcs[t].key, s.pcs[t].id))
    ensures Follows(s, SleepOk(t), SleepOkStep(s, t))
  {
    hide Unbind;
  }

  lemma SleepFollows(s: System, t: nat)
    requires TimersOK(s) && OneMover(s) && t < |s.pcs| && s.pcs[t].Sleeping? && SlotIn(s, s.pcs[t].id)
    ensures Follows(s, SleepOk(t), SleepOkStep(s, t))
  {
    hide TimersOK, Follows, OneMover, SleepOkStep;
    if s.core.grace > 0 && Mapped(s.core, s.pcs[t].key, s.pcs[t].id) { SleepArms(s, t); } else { SleepEnds(s, t); }
  }

  lemma CloseOldFollows(s: System, t: nat)
    requires TimersOK(s) && OneMover(s) && t < |s.pcs| && s.pcs[t].Swapped? && SlotIn(s, s.pcs[t].id) && s.pcs[t].oldReady < |s.core.closed|
    ensures Follows(s, CloseOld(t), CloseOldStep(s, t))
  {
    hide Unbind;
  }

  lemma CloserFollows(s: System, t: nat)
    requires TimersOK(s) && OneMover(s) && t < |s.pcs| && s.pcs[t].CloserClosing? && SlotIn(s, s.pcs[t].id) && SlotIn(s, s.pcs[t].closer)
    ensures Follows(s, CloserClosed(t), CloserClosedStep(s, t))
  {
    hide Unbind;
  }

  lemma MappedFollows(s: System, t: nat)
    requires TimersOK(s) && OneMover(s) && t < |s.pcs| && s.pcs[t].MappedClosing? && SlotIn(s, s.pcs[t].id)
    ensures Follows(s, MappedClosed(t), MappedClosedStep(s, t))
  {
    hide Unbind;
  }

  lemma BareFollows(s: System, t: nat)
    requires TimersOK(s) && OneMover(s) && t < |s.pcs| && s.pcs[t].BareClosing? && SlotIn(s, s.pcs[t].id)
    ensures Follows(s, BareClosed(t), BareClosedStep(s, t))
  {
    hide Unbind;
  }

  lemma ReadyFollows(s: System, t: nat)
    requires TimersOK(s) && OneMover(s) && t < |s.pcs| && s.pcs[t].Unparking? && s.pcs[t].ch < |s.core.closed|
    ensures Follows(s, CloseReady(t), CloseReadyStep(s, t))
  {
    hide Unbind;
  }

  lemma ExpireFollows(s: System, t: nat)
    requires TimersOK(s) && OneMover(s) && t < |s.pcs| && s.pcs[t].Expiring? && SlotIn(s, s.pcs[t].id)
    ensures Follows(s, Expire(t), ExpiryStep(s, t))
  {
    hide Unbind;
  }

  lemma FireFollows(s: System, t: nat)
    requires TimersOK(s) && OneMover(s) && t < |s.pcs| && s.pcs[t].Armed?
    ensures Follows(s, Fire(t), FireStep(s, t))
  {
    hide Unbind;
  }

  lemma MoveFollows(s: System, a: Action, r: System)
    requires a.Lookup? || a.Replay? || a.CreateOk? || a.CreateFail? || a.WakeOk? || a.WakeFail? || a.Release?
          || a.Forsake? || a.Claim? || a.Unpark? || a.SleepOk? || a.SleepFail? || a.CloseOld? || a.CloserClosed?
          || a.MappedClosed? || a.BareClosed? || a.CloseReady? || a.Fire? || a.Expire? || a.ResetNext?
          || a.ResetSlept? || a.ResetClosed?
    requires TimersOK(s) && OneMover(s) && a.t < |s.pcs| && Move(s, a, r)
    requires !s.pcs[a.t].Resetting? && !s.pcs[a.t].ResetSleeping? && !s.pcs[a.t].ResetClosing?
    ensures Follows(s, a, r)
  {
    hide OneMover, TimersOK, Follows, LookupStep, CreateOkStep, CreateFailStep, WakeOkStep, WakeFailStep, ReleaseStep, ClaimStep,
      SleepOkStep, SleepFailStep, CloseOldStep, CloserClosedStep, MappedClosedStep, BareClosedStep, CloseReadyStep, ExpiryStep, FireStep,
      ResetNextStep, ResetSleptStep, ResetClosedStep;
    match a
    case Lookup(t) => LookupFollows(s, t);
    case CreateOk(t, value, enforce) => PutFollows(s, t, value, enforce);
    case CreateFail(t) => FailFollows(s, t);
    case WakeOk(t) => WakeFollows(s, t);
    case WakeFail(t) => WakePanicFollows(s, t);
    case Release(t) => ReleaseFollows(s, t);
    case Claim(t) => ClaimFollows(s, t);
    case SleepOk(t) => SleepFollows(s, t);
    case SleepFail(t) => SleepPanicFollows(s, t);
    case CloseOld(t) => CloseOldFollows(s, t);
    case CloserClosed(t) => CloserFollows(s, t);
    case MappedClosed(t) => MappedFollows(s, t);
    case BareClosed(t) => BareFollows(s, t);
    case CloseReady(t) => ReadyFollows(s, t);
    case Fire(t) => FireFollows(s, t);
    case Expire(t) => ExpireFollows(s, t);
    case Replay(t) => PlainFollows(s, a, t, r.pcs[t]);
    case Forsake(t) => PlainFollows(s, a, t, Done);
    case Unpark(t) => PlainFollows(s, a, t, Dropping(s.pcs[t].key, s.pcs[t].id));
    case _ =>
  }

  lemma TimersStep(s: System, a: Action, r: System)
    requires Inv(s) && !s.resetUsed && Step(s, a, r) && !a.ResetStart? && TimersOK(s)
    ensures Follows(s, a, r)
  {
    hide Inv, Move, OneMover, SetAlias, Watch, DropWatcher, ClearPublisher;
    MoversDiffer(s);
    forall t | 0 <= t < |s.pcs| ensures !s.pcs[t].Resetting? && !s.pcs[t].ResetSleeping? && !s.pcs[t].ResetClosing? { NoneResets(s, t); }
    match a
    case Spawn(_) =>
    case DoSetAlias(_, _, _, _) =>
    case DoWatch(_, _, _) =>
    case DoDropWatcher(_, _) =>
    case DoClearPublisher(_, _) =>
    case _ => MoveFollows(s, a, r);
  }

  lemma {:induction false} RunTimers(run: seq<System>, acts: seq<Action>, k: nat)
    requires Run(run, acts) && !UsesReset(acts) && k < |run|
    ensures TimersOK(run[k]) && Inv(run[k]) && !run[k].resetUsed
    ensures k < |acts| ==> TimersFollow(run[k], acts[k], run[k + 1])
  {
    hide Step, Inv, TimersOK, TimersFollow;
    RunInv(run, acts, k);
    NotUsed(acts, k);
    if k == 0 { NoTimers(run[0]); } else { RunTimers(run, acts, k - 1); OneTimerStep(run, acts, k - 1); }
    if k < |acts| { OneTimerStep(run, acts, k); }
  }

  lemma NoTimers(s: System)
    requires exists grace :: s == Init(grace)
    ensures TimersOK(s)
  {
  }

  lemma OneTimerStep(run: seq<System>, acts: seq<Action>, k: nat)
    requires Run(run, acts) && !UsesReset(acts) && k < |acts| && TimersOK(run[k]) && Inv(run[k]) && !run[k].resetUsed
    ensures TimersFollow(run[k], acts[k], run[k + 1]) && TimersOK(run[k + 1])
  {
    hide Step, Inv, TimersOK, TimersFollow;
    assert !acts[k].ResetStart?;
    TimersStep(run[k], acts[k], run[k + 1]);
  }

  // ---------------------------------------------------------------- what ends a grace

  /** While a value is kept no timer is made for it: one that is there now was there before, and one that has fired
      since was fired. */
  lemma {:induction false} FuseWasThere(run: seq<System>, acts: seq<Action>, key: Key, id: nat, i: nat, j: nat, v: nat)
    requires Run(run, acts) && !UsesReset(acts) && i <= j < |run| && v < |run[j].pcs| && Fuse(run[j].pcs[v], id)
    requires forall m :: i <= m < j ==> Kept(run[m], key, id)
    ensures v < |run[i].pcs| && Fuse(run[i].pcs[v], id)
    ensures run[i].pcs[v].Armed? && run[j].pcs[v].Expiring? ==> exists m :: i <= m < j && acts[m] == Fire(v)
    ensures run[j].pcs[v].Armed? ==> run[i].pcs[v].Armed?
  {
    hide Step, Inv, TimersOK, LeftAlone;
    if i < j {
      RunTimers(run, acts, j - 1);
      KeptIsLeftAlone(run[j - 1], key, id);
      NotSlept(run[j - 1], key, id);
      assert acts[j - 1] == Fire(v) ==> i <= j - 1 < j;
      FuseWasThere(run, acts, key, id, i, j - 1, v);
    }
  }

  lemma NotSlept(s: System, key: Key, id: nat)
    requires id < |s.core.slots| && LeftAlone(s, key, id)
    ensures forall t :: 0 <= t < |s.pcs| && s.pcs[t].Sleeping? ==> s.pcs[t].id != id
  {
    forall t | 0 <= t < |s.pcs| && s.pcs[t].Sleeping? ensures s.pcs[t].id != id { assert id !in Owns(s.pcs[t]); }
  }

  lemma ArmedBeforeSleep(s: System, t: nat, v: nat)
    requires TimersOK(s) && t < |s.pcs| && s.pcs[t].Sleeping? && v < |s.pcs|
    ensures !(s.pcs[v].Armed? && s.pcs[v].id == s.pcs[t].id)
  {
  }

  /** In every run without Reset, an expiry that ends a grace comes from the timer armed for it, which has fired
      since, or from one that had fired before the sleep and whose expiry had not run yet. */
  lemma WhatEndsTheGrace(run: seq<System>, acts: seq<Action>, i: nat, j: nat, t: nat)
    requires Run(run, acts) && !UsesReset(acts) && i < j < |acts| && acts[i] == SleepOk(t) && run[i].core.grace > 0
    requires t < |run[i].pcs| && run[i].pcs[t].Sleeping? && Expires(run[j], acts[j], run[i].pcs[t].id)
    requires forall m :: i < m < j ==> !Opens(run[m], acts[m], run[i].pcs[t].key) && !Expires(run[m], acts[m], run[i].pcs[t].id)
    ensures var v := acts[j].t; var armed := |run[i].pcs|;
            || (v == armed && exists m :: i < m < j && acts[m] == Fire(v))
            || (v < |run[i].pcs| && run[i].pcs[v].Expiring? && run[i].pcs[v].id == run[i].pcs[t].id)
  {
    hide Step, Inv, TimersOK;
    var key, id, v := run[i].pcs[t].key, run[i].pcs[t].id, acts[j].t;
    SleepDecides(run, acts, i, t);
    forall m | i + 1 <= m < j ensures Kept(run[m], key, id) { KeptForGrace(run, acts, i, m, t); }
    FuseWasThere(run, acts, key, id, i + 1, j, v);
    RunTimers(run, acts, i);
    if v < |run[i].pcs| { ArmedBeforeSleep(run[i], t, v); }
  }

  /** So if no earlier expiry is pending when the value is put to sleep, it is kept until its key is opened or the
      timer armed for it fires. */
  lemma {:induction false} GraceIsWhole(run: seq<System>, acts: seq<Action>, i: nat, j: nat, t: nat)
    requires Run(run, acts) && !UsesReset(acts) && i < j < |run| && acts[i] == SleepOk(t) && run[i].core.grace > 0
    requires t < |run[i].pcs| && run[i].pcs[t].Sleeping?
    requires forall v :: 0 <= v < |run[i].pcs| ==> !(run[i].pcs[v].Expiring? && run[i].pcs[v].id == run[i].pcs[t].id)
    requires forall m :: i < m < j ==> !Opens(run[m], acts[m], run[i].pcs[t].key) && acts[m] != Fire(|run[i].pcs|)
    ensures Kept(run[j], run[i].pcs[t].key, run[i].pcs[t].id)
    ensures forall m :: i < m < j ==> !Expires(run[m], acts[m], run[i].pcs[t].id)
  {
    hide Step, Expires, Opens, Kept;
    if j > i + 1 {
      GraceIsWhole(run, acts, i, j - 1, t);
      NotYet(run, acts, i, j - 1, t);
    }
    forall m | i < m < j ensures !Expires(run[m], acts[m], run[i].pcs[t].id) { assert m < j - 1 || m == j - 1; }
    KeptForGrace(run, acts, i, j, t);
  }

  lemma NotYet(run: seq<System>, acts: seq<Action>, i: nat, j: nat, t: nat)
    requires Run(run, acts) && !UsesReset(acts) && i < j < |acts| && acts[i] == SleepOk(t) && run[i].core.grace > 0
    requires t < |run[i].pcs| && run[i].pcs[t].Sleeping?
    requires forall v :: 0 <= v < |run[i].pcs| ==> !(run[i].pcs[v].Expiring? && run[i].pcs[v].id == run[i].pcs[t].id)
    requires forall m :: i < m < j ==> !Opens(run[m], acts[m], run[i].pcs[t].key) && !Expires(run[m], acts[m], run[i].pcs[t].id)
    requires forall m :: i < m < j ==> acts[m] != Fire(|run[i].pcs|)
    ensures !Expires(run[j], acts[j], run[i].pcs[t].id)
  {
    hide Step, Opens;
    if Expires(run[j], acts[j], run[i].pcs[t].id) { WhatEndsTheGrace(run, acts, i, j, t); }
  }
}
