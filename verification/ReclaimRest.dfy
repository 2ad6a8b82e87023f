/** What the reclaim table reaches when its goroutines come to rest, that they do come to rest, and
    what its aliases and watchers can rely on. */
module ReclaimRest {
  import opened Basics
  import opened AliasLinks
  import opened ReclaimCore
  import opened ReclaimSystem
  import opened ReclaimInvariant
  import opened ReclaimSteps
  import opened ReclaimWideSteps
  import opened ReclaimRuns
  import opened ReclaimSafety

  // ---------------------------------------------------------------- nothing leaks

  /** A goroutine with nothing left to do on its own: finished, holding, or an armed timer. */
  predicate AtEase(pc: Pc) {
    pc.Done? || pc.Holding? || pc.Armed?
  }

  /** A slot is settled when it is held, asleep under an armed timer, or ended; a value that ended
      has been closed. */
  ghost predicate IsSettled(s: System, i: nat)
    requires i < |s.core.slots| && i < |s.notes|
  {
    match s.core.slots[i].state
    case Busy => false
    case Awake => s.core.slots[i].holders > 0
    case Asleep => exists t :: 0 <= t < |s.pcs| && s.pcs[t].Armed? && s.pcs[t].id == i
    case Gone => s.notes[i].put ==> HasClosed(s.notes[i])
  }

  /** In every run, Reset included: when every goroutine is at ease, no slot is busy, no awake value
      is without a holder, no sleeping value is without a timer, no ended value is unclosed, and no
      channel is left open. */
  lemma NothingLeaks(run: seq<System>, acts: seq<Action>, k: nat)
    requires Run(run, acts) && k < |run|
    requires forall t :: 0 <= t < |run[k].pcs| ==> AtEase(run[k].pcs[t])
    ensures var s := run[k];
            && |s.notes| == |s.core.slots|
            && (forall i :: 0 <= i < |s.core.slots| ==> IsSettled(s, i))
            && (forall c :: 0 <= c < |s.core.closed| ==> s.core.closed[c])
  {
    hide Step;
    RunInv(run, acts, k);
    hide Consistent, RefOK, Run;
    var s := run[k];
    forall i | 0 <= i < |s.core.slots| ensures IsSettled(s, i) {
      assert SlotOK(i, s.core.slots[i], s.notes[i], s.pcs, s.resetUsed);
      if PhaseOf(s.notes[i].trace) == Phase.Ended { EndedMeansClosed(s.notes[i].trace); }
    }
    forall c | 0 <= c < |s.core.closed| ensures s.core.closed[c] {
      assert ChanOK(c, s.core.closed[c], s.closer[c], s.pcs);
    }
  }

  // ---------------------------------------------------------------- no deadlock

  ghost predicate Waits(s: System, pc: Pc) {
    (pc.Parked? || pc.DropParked?) && !IsClosed(s, pc.ch)
  }

  /** No deadlock, in every run: whoever waits on a channel waits for one goroutine that has yet to
      close it and is not itself waiting. */
  lemma WaitersAreServed(run: seq<System>, acts: seq<Action>, k: nat, t: nat)
    requires Run(run, acts) && k < |run| && t < |run[k].pcs| && Waits(run[k], run[k].pcs[t])
    ensures exists u :: 0 <= u < |run[k].pcs| && run[k].pcs[t].ch in MustClose(run[k].pcs[u])
                        && !Waits(run[k], run[k].pcs[u])
  {
    hide Step;
    RunInv(run, acts, k);
    hide Run, Consistent, RefOK, SlotOK;
    var s := run[k];
    var c := s.pcs[t].ch;
    assert PcOK(s, t, s.pcs[t]);
    assert ChanOK(c, s.core.closed[c], s.closer[c], s.pcs);
    assert !Waits(s, s.pcs[s.closer[c]]);
  }

  // ---------------------------------------------------------------- aliases

  /** In every run: each alias entry and the incarnation it points at agree on the link, a named
      publisher holds one alias per group, and no watcher hears the same value twice in a row.
      Without Reset, no alias points at a value whose Close has returned. */
  lemma AliasesStayConsistent(run: seq<System>, acts: seq<Action>, k: nat)
    requires Run(run, acts) && k < |run|
    ensures TwoWay(run[k].core.links) && OnePerGroup(run[k].core.links) && AllFaithful(run[k].core.links)
    ensures !UsesReset(acts) ==> forall e :: 0 <= e < |run[k].core.links.entries| ==> PointsAtLive(run[k], e)
  {
    hide Step;
    RunInv(run, acts, k);
    hide Run;
    var s := run[k];
    if !UsesReset(acts) {
      NotUsed(acts, k);
      forall e | 0 <= e < |s.core.links.entries| ensures PointsAtLive(s, e) { LiveTarget(s, e); }
    }
  }

  ghost predicate PointsAtLive(s: System, e: nat)
    requires e < |s.core.links.entries|
  {
    var q := s.core.links.entries[e].incarnation;
    q.Some? ==> q.value.id < |s.core.slots| && q.value.id < |s.notes|
                && s.notes[q.value.id].put && !HasClosed(s.notes[q.value.id])
                && s.core.slots[q.value.id].value == q.value.value
  }

  lemma LiveTarget(s: System, e: nat)
    requires Inv(s) && !s.resetUsed && e < |s.core.links.entries|
    ensures PointsAtLive(s, e)
  {
    hide Consistent, PcOK, ItemOK, MappedOK;
    assert RefOK(s.core.links.entries[e].incarnation, s);
    var q := s.core.links.entries[e].incarnation;
    if q.Some? {
      var id := q.value.id;
      assert SlotOK(id, s.core.slots[id], s.notes[id], s.pcs, s.resetUsed);
      NotClosedYet(s.notes[id].trace);
    }
  }

  /** Only a finished life ends in a completed Close. */
  lemma NotClosedYet(trace: seq<Event>)
    requires PhaseOf(trace) != Illegal && PhaseOf(trace) != Phase.Ended
    ensures trace == [] || trace[|trace| - 1] != CloseEnd
  {
  }

  // ---------------------------------------------------------------- watchers

  /** What one step does to the links when it is not a Watch. */
  lemma StepLinks(s: System, a: Action, r: System)
    requires Inv(s) && Step(s, a, r) && !a.DoWatch? && AllAgree(s.core.links)
    ensures AllAgree(r.core.links)
  {
    if a.DoSetAlias? { SetAliasKeeps(s.core.links, AliasTarget(s.core, a.key), a.alias, a.publisher, a.group); }
    else if a.DoDropWatcher? { DropWatcherKeeps(s.core.links, a.alias, a.wid); }
    else if a.DoClearPublisher? { ClearPublisherKeeps(s.core.links, a.publisher, a.group); }
    else if a.ResetStart? {
      UnbindAllKeeps(s.core.links, a.order);
      ForgetNames(UnbindAll(s.core.links, a.order));
    } else if !a.Spawn? {
      MoveLinks(s, a, r);
      forall id: nat ensures AllAgree(Unbind(s.core.links, id)) { UnbindKeeps(s.core.links, id); }
    }
  }

  lemma MoveLinks(s: System, a: Action, r: System)
    requires Step(s, a, r)
    requires !a.Spawn? && !a.ResetStart? && !a.DoSetAlias? && !a.DoWatch? && !a.DoDropWatcher? && !a.DoClearPublisher?
    ensures r.core.links == s.core.links || exists id: nat :: r.core.links == Unbind(s.core.links, id)
  {
    hide Unbind, Step;
    if a.WakeFail? || a.SleepFail? || a.CloseOld? { PanicLinks(s, a, r); }
    else if a.SleepOk? || a.Expire? || a.Claim? { EndingLinks(s, a, r); }
    else { OtherLinks(s, a, r); }
  }

  lemma PanicLinks(s: System, a: Action, r: System)
    requires Step(s, a, r) && (a.WakeFail? || a.SleepFail? || a.CloseOld?)
    ensures r.core.links == s.core.links || exists id: nat :: r.core.links == Unbind(s.core.links, id)
  {
    hide Unbind;
  }

  lemma EndingLinks(s: System, a: Action, r: System)
    requires Step(s, a, r) && (a.SleepOk? || a.Expire? || a.Claim?)
    ensures r.core.links == s.core.links || exists id: nat :: r.core.links == Unbind(s.core.links, id)
  {
    hide Unbind;
  }

  lemma OtherLinks(s: System, a: Action, r: System)
    requires Step(s, a, r)
    requires !a.Spawn? && !a.ResetStart? && !a.DoSetAlias? && !a.DoWatch? && !a.DoDropWatcher? && !a.DoClearPublisher?
    requires !a.WakeFail? && !a.SleepFail? && !a.SleepOk? && !a.CloseOld? && !a.Expire? && !a.Claim?
    ensures r.core.links == s.core.links || exists id: nat :: r.core.links == Unbind(s.core.links, id)
  {
    hide Unbind;
  }

  /** A watcher can fall out of agreement only by a Watch that brings a late empty, and then it does. */
  lemma AgreementStep(s: System, a: Action, r: System)
    requires Inv(s) && Step(s, a, r) && AllAgree(s.core.links)
    ensures AllAgree(r.core.links) <==> !(a.DoWatch? && LateEmpty(s.core.links, a.alias, a.empty))
  {
    if a.DoWatch? { WatchKeeps(s.core.links, a.alias, a.empty, a.wid); } else { StepLinks(s, a, r); }
  }

  lemma NamesInRange(s: System, alias: Name)
    requires Inv(s)
    ensures AliasIn(s.core.links, alias)
  {
    hide SlotsInv, PcsInv, ChansInv, ItemsInv, RefOK;
  }

  /** In every run without a late empty, Reset included, every watcher was last told what its alias
      publishes now. */
  lemma {:induction false} WatchersAgree(run: seq<System>, acts: seq<Action>, k: nat)
    requires Run(run, acts) && k < |run|
    requires forall j :: 0 <= j < k ==> !BringsLateEmpty(run[j], acts[j])
    ensures AllAgree(run[k].core.links)
  {
    hide Step, Inv;
    if k > 0 {
      WatchersAgree(run, acts, k - 1);
      RunInv(run, acts, k - 1);
      AgreementStep(run[k - 1], acts[k - 1], run[k]);
      assert !BringsLateEmpty(run[k - 1], acts[k - 1]);
      if acts[k - 1].DoWatch? { NamesInRange(run[k - 1], acts[k - 1].alias); }
    } else {
      var grace :| run[0] == Init(grace);
      assert run[0].core.links.entries == [];
    }
  }

  ghost predicate BringsLateEmpty(s: System, a: Action) {
    a.DoWatch? && AliasIn(s.core.links, a.alias) && LateEmpty(s.core.links, a.alias, a.empty)
  }
}
