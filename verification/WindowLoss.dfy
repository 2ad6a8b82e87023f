/** When a hit is lost: exactly if a flush with nothing left to send sweeps a window that a Take has looked
    up and not yet counted on. */
module WindowLoss {
  import opened Basics
  import opened WindowSystem
  import opened WindowInvariant
  import opened WindowSteps
  import opened WindowRuns

  /** The Take has its window in hand and waits for the GET of the previous one. */
  predicate Holding(pc: Pc) { pc.TakePrevGet? || pc.TakePrevGot? }

  predicate HoldsAs(pc: Pc, k: Key, wid: nat) { Holding(pc) && pc.cur == k && pc.wid == wid }

  predicate Mapped(s: System, k: Key, wid: nat) { k in s.windows && s.windows[k] == wid }

  ghost predicate HeldMapped(s: System) {
    forall u :: 0 <= u < |s.pcs| && Holding(s.pcs[u]) ==> Mapped(s, s.pcs[u].cur, s.pcs[u].wid)
  }

  // ---------------------------------------------------------------- which windows a section sweeps

  /** The state in which a section sweeps, and the clock it sweeps with. */
  datatype Eve = Eve(s: System, now: int)

  /** Only a flush that has nothing to send sweeps at once. */
  function EndEve(s: System, ending: Ending): Option<Eve> {
    if ending.Flush? && ending.order == [] then Some(Eve(s, ending.now)) else None
  }

  function TakeEve(s: System, cur: Key, prev: Key, wid: nat, ending: Ending): Option<Eve>
    requires wid < |s.heap|
  {
    if prev in s.windows then EndEve(Hit(s, cur, wid), ending) else None
  }

  function PeekEve(s: System, prev: Key, ending: Ending): Option<Eve> {
    if prev in s.windows then EndEve(s, ending) else None
  }

  /** A flush that waits for Redis sweeps when its last job settles. */
  function SettleEve(s: System, pc: Pc, ok: bool): Option<Eve>
    requires pc.Evaluating?
  {
    if |pc.jobs| == 1 then Some(Eve(Settled(s, pc.jobs[0], ok, pc.applied, pc.reply), pc.now)) else None
  }

  function TakeSweep(s: System, a: Action, pc: Pc): Option<Eve> {
    match a
    case TakeBegin(_, ending) =>
      if pc.TakeCall? && Live(s, pc.cur) && At(s, pc.cur).localDelta != 0
      then TakeEve(Written(s, s.windows[pc.cur], Raised(At(s, pc.cur), pc.e)), pc.cur, pc.prev, s.windows[pc.cur], ending) else None
    case TakeResume(_, ending) =>
      if pc.TakeGot? && (pc.cur in s.windows ==> Live(s, pc.cur))
      then var s1 := Stored(s, pc.cur, pc.known, pc.e); TakeEve(s1, pc.cur, pc.prev, s1.windows[pc.cur], ending) else None
    case TakeFinish(_, ending) =>
      if pc.TakePrevGot? && (pc.prev in s.windows ==> Live(s, pc.prev)) && pc.wid < |s.heap|
      then EndEve(Hit(Stored(s, pc.prev, pc.known, 0), pc.cur, pc.wid), ending) else None
    case _ => None
  }

  function PeekSweep(s: System, a: Action, pc: Pc): Option<Eve> {
    match a
    case PeekBegin(_, ending) =>
      if pc.PeekCall? && Live(s, pc.cur)
      then PeekEve(Written(s, s.windows[pc.cur], Raised(At(s, pc.cur), pc.e)), pc.prev, ending) else None
    case PeekResume(_, ending) =>
      if pc.PeekGot? && (pc.cur in s.windows ==> Live(s, pc.cur))
      then PeekEve(Stored(s, pc.cur, pc.known, pc.e), pc.prev, ending) else None
    case PeekFinish(_, ending) =>
      if pc.PeekPrevGot? && (pc.prev in s.windows ==> Live(s, pc.prev))
      then EndEve(Stored(s, pc.prev, pc.known, 0), ending) else None
    case _ => None
  }

  /** The sweep of an action, if its section gets to one. */
  function SweepOf(s: System, a: Action): Option<Eve> {
    match a
    case FlushBegin(_, order, now) => if order == [] then Some(Eve(s, now)) else None
    case Settle(t, ok) => if t < |s.pcs| && s.pcs[t].Evaluating? then SettleEve(s, s.pcs[t], ok) else None
    case TakeBegin(t, _) => if t < |s.pcs| then TakeSweep(s, a, s.pcs[t]) else None
    case TakeResume(t, _) => if t < |s.pcs| then TakeSweep(s, a, s.pcs[t]) else None
    case TakeFinish(t, _) => if t < |s.pcs| then TakeSweep(s, a, s.pcs[t]) else None
    case PeekBegin(t, _) => if t < |s.pcs| then PeekSweep(s, a, s.pcs[t]) else None
    case PeekResume(t, _) => if t < |s.pcs| then PeekSweep(s, a, s.pcs[t]) else None
    case PeekFinish(t, _) => if t < |s.pcs| then PeekSweep(s, a, s.pcs[t]) else None
    case _ => None
  }

  predicate RemovedBy(eve: Option<Eve>, k: Key) {
    eve.Some? && Live(eve.value.s, k) && Stale(At(eve.value.s, k), eve.value.now)
  }

  /** The action's sweep finds the key's window stale. */
  predicate Removes(s: System, a: Action, k: Key) { RemovedBy(SweepOf(s, a), k) }

  // ---------------------------------------------------------------- windows over one section

  /** What becomes of a key's window: it goes exactly if it is removed; what comes is a new object. */
  ghost predicate Fate(s: System, r: System, k: Key, gone: bool) {
    && |s.heap| <= |r.heap|
    && (k in s.windows && gone ==> k !in r.windows)
    && (k in s.windows && !gone ==> Mapped(r, k, s.windows[k]))
    && (k !in s.windows && k in r.windows ==> |s.heap| <= r.windows[k])
  }

  lemma NextJobFate(s: System, t: nat, jobs: seq<Job>, now: int, probe: bool, k: Key)
    requires t < |s.pcs| && forall x :: x in s.windows ==> Live(s, x)
    ensures Fate(s, NextJob(s, t, jobs, now, probe), k, jobs == [] && Live(s, k) && Stale(At(s, k), now))
  {
  }

  lemma FlushFate(s: System, t: nat, order: seq<Key>, now: int, probe: bool, r: System, k: Key)
    requires t < |s.pcs| && StartsFlush(s, t, order, now, probe, r)
    ensures Fate(s, r, k, order == [] && Live(s, k) && Stale(At(s, k), now))
  {
    hide NextJob;
    SameShape(s, t, order);
    NextJobFate(MarkAll(s, t, order), t, JobsFor(s, order), now, probe, k);
    assert order == [] ==> forall i :: 0 <= i < |s.heap| ==> MarkAll(s, t, order).heap[i] == s.heap[i];
  }

  lemma EndsFate(s: System, t: nat, ending: Ending, r: System, k: Key)
    requires t < |s.pcs| && Ends(s, t, ending, r)
    ensures Fate(s, r, k, RemovedBy(EndEve(s, ending), k))
  {
    hide StartsFlush;
    if ending.Flush? { FlushFate(s, t, ending.order, ending.now, ending.probe, r, k); }
  }

  /** s1 has every window of s, and new ones only as new objects. */
  ghost predicate Extends(s: System, s1: System, k: Key) { Fate(s, s1, k, false) }

  lemma TakesFate(s: System, t: nat, cur: Key, prev: Key, e: int, wid: nat, ending: Ending, r: System, k: Key)
    requires t < |s.pcs| && wid < |s.heap| && TakesFrom(s, t, cur, prev, e, wid, ending, r)
    ensures Fate(s, r, k, RemovedBy(TakeEve(s, cur, prev, wid, ending), k))
  {
    hide Ends;
    if prev in s.windows { EndsFate(Hit(s, cur, wid), t, ending, r, k); }
  }

  lemma PeeksFate(s: System, t: nat, prev: Key, ending: Ending, r: System, k: Key)
    requires t < |s.pcs| && PeeksFrom(s, t, prev, ending, r)
    ensures Fate(s, r, k, RemovedBy(PeekEve(s, prev, ending), k))
  {
    hide Ends;
    if prev in s.windows { EndsFate(s, t, ending, r, k); }
  }

  lemma BeginFate(s: System, a: Action, r: System, k: Key)
    requires Step(s, a, r) && (a.TakeBegin? || a.PeekBegin?)
    ensures Fate(s, r, k, Removes(s, a, k))
  {
    hide TakesFrom, PeeksFrom, RemovedBy, TakeEve, PeekEve;
    var pc := s.pcs[a.t];
    if Live(s, pc.cur) {
      var s1 := Written(s, s.windows[pc.cur], Raised(At(s, pc.cur), pc.e));
      assert Extends(s, s1, k);
      if a.PeekBegin? { PeeksFate(s1, a.t, pc.prev, a.ending, r, k); }
      else if At(s, pc.cur).localDelta != 0 { TakesFate(s1, a.t, pc.cur, pc.prev, pc.e, s.windows[pc.cur], a.ending, r, k); }
      else { NoSweep(SweepOf(s, a), k); }
    } else { NoSweep(SweepOf(s, a), k); }
  }

  lemma NoSweep(eve: Option<Eve>, k: Key)
    requires eve.None?
    ensures !RemovedBy(eve, k)
  {
  }

  lemma ResumeFate(s: System, a: Action, r: System, k: Key)
    requires Step(s, a, r) && (a.TakeResume? || a.PeekResume? || a.PeekFinish?)
    ensures Fate(s, r, k, Removes(s, a, k))
  {
    hide TakesFrom, PeeksFrom, Ends, RemovedBy, TakeEve, PeekEve, EndEve;
    var pc := s.pcs[a.t];
    var s1 := if a.PeekFinish? then Stored(s, pc.prev, pc.known, 0) else Stored(s, pc.cur, pc.known, pc.e);
    assert Extends(s, s1, k);
    if a.TakeResume? { TakesFate(s1, a.t, pc.cur, pc.prev, pc.e, s1.windows[pc.cur], a.ending, r, k); }
    else if a.PeekResume? { PeeksFate(s1, a.t, pc.prev, a.ending, r, k); }
    else { EndsFate(s1, a.t, a.ending, r, k); }
  }

  lemma FinishFate(s: System, a: Action, r: System, k: Key)
    requires Step(s, a, r) && a.TakeFinish? && s.pcs[a.t].wid < |s.heap|
    ensures Fate(s, r, k, Removes(s, a, k))
  {
    hide Ends, RemovedBy, EndEve;
    var pc := s.pcs[a.t];
    var s1 := Hit(Stored(s, pc.prev, pc.known, 0), pc.cur, pc.wid);
    assert Extends(s, s1, k);
    EndsFate(s1, a.t, a.ending, r, k);
  }

  lemma RestFate(s: System, a: Action, r: System, k: Key)
    requires Step(s, a, r)
    requires !a.TakeBegin? && !a.PeekBegin? && !a.TakeResume? && !a.PeekResume? && !a.PeekFinish? && !a.TakeFinish?
    ensures Fate(s, r, k, Removes(s, a, k))
  {
    hide StartsFlush, NextJob;
    if a.FlushBegin? { FlushFate(s, a.t, a.order, a.now, false, r, k); }
    else if a.Settle? {
      var pc := s.pcs[a.t];
      NextJobFate(Settled(s, pc.jobs[0], a.ok, pc.applied, pc.reply), a.t, pc.jobs[1..], pc.now, pc.probe, k);
    }
  }

  /** A step takes a key's window away exactly if its section sweeps and finds the window stale, and no
      step brings an old window back. */
  lemma StepFate(s: System, a: Action, r: System, k: Key)
    requires Inv(s) && Step(s, a, r)
    ensures Fate(s, r, k, Removes(s, a, k))
  {
    hide KeyOK, FlusherOK, Fate, Removes;
    if a.TakeFinish? { assert PcOK(s, a.t, s.pcs[a.t]); FinishFate(s, a, r, k); }
    hide Step;
    if a.TakeBegin? || a.PeekBegin? { BeginFate(s, a, r, k); }
    else if a.TakeResume? || a.PeekResume? || a.PeekFinish? { ResumeFate(s, a, r, k); }
    else if !a.TakeFinish? { RestFate(s, a, r, k); }
  }

  // ---------------------------------------------------------------- threads over one step

  function Mover(a: Action): Option<nat> { if a.Spawn? || a.Elsewhere? || a.Expiry? then None else Some(a.t) }

  /** Only thread t moves, and if it ends up holding a window it held it before or has just looked it up. */
  ghost predicate Moves(s: System, r: System, t: nat) {
    && t < |s.pcs| == |r.pcs| && r.pcs == s.pcs[t := r.pcs[t]]
    && (Holding(r.pcs[t]) ==> HoldsAs(s.pcs[t], r.pcs[t].cur, r.pcs[t].wid) || Mapped(r, r.pcs[t].cur, r.pcs[t].wid))
  }

  lemma FlushPcs(s: System, t: nat, order: seq<Key>, now: int, probe: bool, r: System)
    requires t < |s.pcs| && StartsFlush(s, t, order, now, probe, r)
    ensures Moves(s, r, t) && !Holding(r.pcs[t])
  {
  }

  lemma EndsPcs(s: System, t: nat, ending: Ending, r: System)
    requires t < |s.pcs| && Ends(s, t, ending, r)
    ensures Moves(s, r, t) && !Holding(r.pcs[t])
  {
    hide StartsFlush;
    if ending.Flush? { FlushPcs(s, t, ending.order, ending.now, ending.probe, r); }
  }

  lemma TakesPcs(s: System, t: nat, cur: Key, prev: Key, e: int, wid: nat, ending: Ending, r: System)
    requires t < |s.pcs| && wid < |s.heap| && TakesFrom(s, t, cur, prev, e, wid, ending, r) && Mapped(s, cur, wid)
    ensures Moves(s, r, t) && (TakeEve(s, cur, prev, wid, ending).Some? ==> !Holding(r.pcs[t]))
  {
    hide Ends;
    if prev in s.windows { EndsPcs(Hit(s, cur, wid), t, ending, r); }
  }

  lemma PeeksPcs(s: System, t: nat, prev: Key, ending: Ending, r: System)
    requires t < |s.pcs| && PeeksFrom(s, t, prev, ending, r)
    ensures Moves(s, r, t) && !Holding(r.pcs[t])
  {
    hide Ends;
    if prev in s.windows { EndsPcs(s, t, ending, r); }
  }

  lemma TakeStepPcs(s: System, a: Action, r: System)
    requires Step(s, a, r) && (a.TakeBegin? || a.PeekBegin? || a.TakeResume? || a.PeekResume? || a.PeekFinish? || a.TakeFinish?)
    ensures Moves(s, r, a.t) && (SweepOf(s, a).Some? ==> !Holding(r.pcs[a.t]))
  {
    hide TakesFrom, PeeksFrom, Ends;
    var pc := s.pcs[a.t];
    if a.TakeBegin? || a.PeekBegin? {
      if Live(s, pc.cur) {
        var s1 := Written(s, s.windows[pc.cur], Raised(At(s, pc.cur), pc.e));
        if a.PeekBegin? { PeeksPcs(s1, a.t, pc.prev, a.ending, r); }
        else if At(s, pc.cur).localDelta != 0 { TakesPcs(s1, a.t, pc.cur, pc.prev, pc.e, s.windows[pc.cur], a.ending, r); }
      }
    } else {
      var s1 := if a.PeekFinish? || a.TakeFinish? then Stored(s, pc.prev, pc.known, 0) else Stored(s, pc.cur, pc.known, pc.e);
      if a.TakeResume? { TakesPcs(s1, a.t, pc.cur, pc.prev, pc.e, s1.windows[pc.cur], a.ending, r); }
      else if a.PeekResume? { PeeksPcs(s1, a.t, pc.prev, a.ending, r); }
      else if a.PeekFinish? { EndsPcs(s1, a.t, a.ending, r); }
      else { EndsPcs(Hit(s1, pc.cur, pc.wid), a.t, a.ending, r); }
    }
  }

  /** A thread that sweeps holds no window afterwards. */
  lemma StepPcs(s: System, a: Action, r: System)
    requires Step(s, a, r)
    ensures Mover(a).Some? ==> Moves(s, r, a.t)
    ensures SweepOf(s, a).Some? ==> Mover(a).Some? && a.t < |r.pcs| && !Holding(r.pcs[a.t])
    ensures Mover(a).None? ==> s.pcs <= r.pcs && forall u :: |s.pcs| <= u < |r.pcs| ==> !Holding(r.pcs[u])
  {
    hide StartsFlush, Take, Peek, TakesFrom, PeeksFrom, Ends, Stored, Hit, TakeSweep, PeekSweep, Settled, SettleEve;
    if a.TakeBegin? || a.PeekBegin? || a.TakeResume? || a.PeekResume? || a.PeekFinish? || a.TakeFinish? { TakeStepPcs(s, a, r); }
    else { RestPcs(s, a, r); }
  }

  lemma RestPcs(s: System, a: Action, r: System)
    requires Step(s, a, r)
    requires !a.TakeBegin? && !a.PeekBegin? && !a.TakeResume? && !a.PeekResume? && !a.PeekFinish? && !a.TakeFinish?
    ensures Mover(a).Some? ==> Moves(s, r, a.t)
    ensures SweepOf(s, a).Some? ==> Mover(a).Some? && a.t < |r.pcs| && !Holding(r.pcs[a.t])
    ensures Mover(a).None? ==> s.pcs <= r.pcs && forall u :: |s.pcs| <= u < |r.pcs| ==> !Holding(r.pcs[u])
  {
    hide StartsFlush, Settles, SettleEve, GetStep, ApplyStep, TakeSweep, PeekSweep;
    if a.FlushBegin? { FlushPcs(s, a.t, a.order, a.now, false, r); }
    else if a.Settle? { SettlePcs(s, a.t, a.ok, r); }
    else if a.Get? { GetPcs(s, a.t); }
    else if a.Apply? { ApplyPcs(s, a.t); }
  }

  lemma SettlePcs(s: System, t: nat, ok: bool, r: System)
    requires t < |s.pcs| && s.pcs[t].Evaluating? && s.pcs[t].jobs != [] && Settles(s, t, ok, r)
    ensures Moves(s, r, t) && !Holding(r.pcs[t])
  {
    var pc := s.pcs[t];
    assert Settled(s, pc.jobs[0], ok, pc.applied, pc.reply).pcs == s.pcs;
    hide Settled;
  }

  lemma GetPcs(s: System, t: nat)
    requires t < |s.pcs|
    ensures Moves(s, GetStep(s, t), t)
  {
  }

  lemma ApplyPcs(s: System, t: nat)
    requires t < |s.pcs| && s.pcs[t].Evaluating? && s.pcs[t].jobs != []
    ensures Moves(s, ApplyStep(s, t), t)
  {
  }

  // ---------------------------------------------------------------- held windows

  /** The sweep removes the window of a Take under way, other than one that counts in this very step. */
  ghost predicate RemovesHeld(s: System, a: Action) {
    exists u :: 0 <= u < |s.pcs| && Holding(s.pcs[u]) && Mover(a) != Some(u) && Removes(s, a, s.pcs[u].cur)
  }

  /** One step leaves every Take its mapped window exactly if it removes none that a Take holds. */
  lemma HeldStepIff(s: System, a: Action, r: System)
    requires Inv(s) && HeldMapped(s) && Step(s, a, r)
    ensures HeldMapped(r) <==> !RemovesHeld(s, a)
  {
    StepPcs(s, a, r);
    hide Step, KeyOK, FlusherOK, Removes;
    if RemovesHeld(s, a) {
      var u :| 0 <= u < |s.pcs| && Holding(s.pcs[u]) && Mover(a) != Some(u) && Removes(s, a, s.pcs[u].cur);
      StepFate(s, a, r, s.pcs[u].cur);
      assert r.pcs[u] == s.pcs[u];
    } else {
      forall u | 0 <= u < |r.pcs| && Holding(r.pcs[u]) ensures Mapped(r, r.pcs[u].cur, r.pcs[u].wid) {
        StillMapped(s, a, r, u);
      }
    }
  }

  lemma StillMapped(s: System, a: Action, r: System, u: nat)
    requires Inv(s) && HeldMapped(s) && Step(s, a, r) && !RemovesHeld(s, a) && u < |r.pcs| && Holding(r.pcs[u])
    ensures Mapped(r, r.pcs[u].cur, r.pcs[u].wid)
  {
    StepPcs(s, a, r);
    StepFate(s, a, r, r.pcs[u].cur);
    assert Removes(s, a, r.pcs[u].cur) ==> SweepOf(s, a).Some?;
    hide Step, Removes, Inv, SweepOf;
  }

  // ---------------------------------------------------------------- one Take over a run

  /** From step m, where its window is swept, to j the thread holds the same window. */
  ghost predicate SweptHeld(run: seq<System>, acts: seq<Action>, t: nat, j: nat, m: nat, k: Key, wid: nat) {
    && m < j < |run| && j <= |acts|
    && (forall l :: m <= l <= j ==> t < |run[l].pcs| && HoldsAs(run[l].pcs[t], k, wid))
    && Mapped(run[m], k, wid) && Removes(run[m], acts[m], k)
  }

  ghost predicate Orphaned(run: seq<System>, acts: seq<Action>, t: nat, j: nat, k: Key, wid: nat) {
    exists m: nat :: SweptHeld(run, acts, t, j, m, k, wid)
  }

  /** The window a Take holds is the mapped one exactly if no sweep removed it since the Take got it. */
  lemma {:induction false} MappedUnlessSwept(run: seq<System>, acts: seq<Action>, t: nat, j: nat, k: Key, wid: nat)
    requires Run(run, acts) && j < |run| && t < |run[j].pcs| && HoldsAs(run[j].pcs[t], k, wid)
    ensures Mapped(run[j], k, wid) <==> !Orphaned(run, acts, t, j, k, wid)
  {
    hide Step, Removes, Fate;
    if j > 0 {
      var s, a, r := run[j - 1], acts[j - 1], run[j];
      StepPcs(s, a, r);
      if t < |s.pcs| && HoldsAs(s.pcs[t], k, wid) {
        MappedUnlessSwept(run, acts, t, j - 1, k, wid);
        OneMoreStep(run, acts, t, j, k, wid);
      } else {
        assert Mapped(r, k, wid);
        assert forall m: nat :: SweptHeld(run, acts, t, j, m, k, wid) ==> m <= j - 1;
      }
    }
  }

  lemma OneMoreStep(run: seq<System>, acts: seq<Action>, t: nat, j: nat, k: Key, wid: nat)
    requires Run(run, acts) && 0 < j < |run| && t < |run[j].pcs| && HoldsAs(run[j].pcs[t], k, wid)
    requires t < |run[j - 1].pcs| && HoldsAs(run[j - 1].pcs[t], k, wid)
    requires Mapped(run[j - 1], k, wid) <==> !Orphaned(run, acts, t, j - 1, k, wid)
    ensures Mapped(run[j], k, wid) <==> !Orphaned(run, acts, t, j, k, wid)
  {
    hide Step, Removes;
    var s, a, r := run[j - 1], acts[j - 1], run[j];
    RunInv(run, acts, j - 1);
    StepFate(s, a, r, k);
    assert PcOK(s, t, s.pcs[t]);
    hide Inv, PcOK;
    if Orphaned(run, acts, t, j - 1, k, wid) {
      var m: nat :| SweptHeld(run, acts, t, j - 1, m, k, wid);
      assert SweptHeld(run, acts, t, j, m, k, wid);
    }
    if Mapped(s, k, wid) && Removes(s, a, k) { assert SweptHeld(run, acts, t, j, j - 1, k, wid); }
    forall m: nat | SweptHeld(run, acts, t, j, m, k, wid) ensures m == j - 1 || SweptHeld(run, acts, t, j - 1, m, k, wid) { }
  }

  // ---------------------------------------------------------------- lost hits, counted

  /** The step counts a hit of the key on a window that is no longer the mapped one. */
  predicate Loses(s: System, a: Action, k: Key) {
    a.TakeFinish? && a.t < |s.pcs| && s.pcs[a.t].TakePrevGot? && s.pcs[a.t].cur == k && !Mapped(s, k, s.pcs[a.t].wid)
  }

  lemma LostStep(s: System, a: Action, r: System, k: Key)
    requires Inv(s) && Step(s, a, r)
    ensures BookOf(r, k).tally.lost == BookOf(s, k).tally.lost + if Loses(s, a, k) then 1 else 0
  {
    hide StartsFlush, Take, Peek, TakesFrom, PeeksFrom, Ends, Settles, KeyOK, FlusherOK;
    if a.TakeBegin? || a.PeekBegin? { BeginBooks(s, a, r, k); }
    else if a.TakeResume? || a.PeekResume? || a.PeekFinish? { ResumeBooks(s, a, r, k); }
    else if a.TakeFinish? { assert PcOK(s, a.t, s.pcs[a.t]); FinishLost(s, a.t, a.ending, r, k); }
    else { RestBooks(s, a, r, k); }
  }

  lemma FinishLost(s: System, t: nat, ending: Ending, r: System, k: Key)
    requires Step(s, TakeFinish(t, ending), r) && s.pcs[t].wid < |s.heap|
    ensures BookOf(r, k).tally.lost == BookOf(s, k).tally.lost + if Loses(s, TakeFinish(t, ending), k) then 1 else 0
  {
    hide Ends;
    var s1 := Stored(s, s.pcs[t].prev, s.pcs[t].known, 0);
    assert BookOf(s1, k) == BookOf(s, k);
    EndsBooks(Hit(s1, s.pcs[t].cur, s.pcs[t].wid), t, ending, r, k);
  }

  /** At step j a Take of the key counts its hit after a sweep has removed the window it holds. */
  ghost predicate LateTake(run: seq<System>, acts: seq<Action>, j: nat, k: Key) {
    && j < |acts| && j < |run| && acts[j].TakeFinish? && acts[j].t < |run[j].pcs| && run[j].pcs[acts[j].t].TakePrevGot?
    && run[j].pcs[acts[j].t].cur == k && Orphaned(run, acts, acts[j].t, j, k, run[j].pcs[acts[j].t].wid)
  }

  ghost function LateTakes(run: seq<System>, acts: seq<Action>, n: nat, k: Key): nat {
    if n == 0 then 0 else LateTakes(run, acts, n - 1, k) + if LateTake(run, acts, n - 1, k) then 1 else 0
  }

  /** In every run the hits lost are exactly the Takes that counted after their window was swept. */
  lemma {:induction false} LostExactly(run: seq<System>, acts: seq<Action>, n: nat, k: Key)
    requires Run(run, acts) && n < |run|
    ensures BookOf(run[n], k).tally.lost == LateTakes(run, acts, n, k)
  {
    hide Step, Inv, Orphaned;
    if n > 0 {
      LostExactly(run, acts, n - 1, k);
      RunInv(run, acts, n - 1);
      LostStep(run[n - 1], acts[n - 1], run[n], k);
      LateIsLost(run, acts, n - 1, k);
    }
  }

  lemma LateIsLost(run: seq<System>, acts: seq<Action>, j: nat, k: Key)
    requires Run(run, acts) && j < |acts|
    ensures Loses(run[j], acts[j], k) <==> LateTake(run, acts, j, k)
  {
    hide Step, Orphaned;
    var s, a := run[j], acts[j];
    if a.TakeFinish? && a.t < |s.pcs| && s.pcs[a.t].TakePrevGot? && s.pcs[a.t].cur == k {
      MappedUnlessSwept(run, acts, a.t, j, k, s.pcs[a.t].wid);
    }
  }

  // ---------------------------------------------------------------- what a caller can tell by the clock

  /** Up to its sweep a section takes no window away and lowers no expiry time. */
  lemma NoEarlier(s: System, a: Action, k: Key)
    requires Live(s, k) && SweepOf(s, a).Some?
    ensures var s1 := SweepOf(s, a).value.s; Live(s1, k) && At(s1, k).expireAt >= At(s, k).expireAt
  {
    hide TakeSweep, PeekSweep;
    if a.TakeBegin? || a.TakeResume? || a.TakeFinish? { TakeNoEarlier(s, a, s.pcs[a.t], k); }
    else if a.PeekBegin? || a.PeekResume? || a.PeekFinish? { PeekNoEarlier(s, a, s.pcs[a.t], k); }
  }

  lemma TakeNoEarlier(s: System, a: Action, pc: Pc, k: Key)
    requires Live(s, k) && TakeSweep(s, a, pc).Some?
    ensures var s1 := TakeSweep(s, a, pc).value.s; Live(s1, k) && At(s1, k).expireAt >= At(s, k).expireAt
  {
  }

  lemma PeekNoEarlier(s: System, a: Action, pc: Pc, k: Key)
    requires Live(s, k) && PeekSweep(s, a, pc).Some?
    ensures var s1 := PeekSweep(s, a, pc).value.s; Live(s1, k) && At(s1, k).expireAt >= At(s, k).expireAt
  {
  }

  /** A sweep that removes a Take's window has a clock that reached the Take's expiry time. */
  lemma SweptOnlyWhenDue(s: System, a: Action, u: nat)
    requires Inv(s) && u < |s.pcs| && Holding(s.pcs[u]) && Mapped(s, s.pcs[u].cur, s.pcs[u].wid) && Removes(s, a, s.pcs[u].cur)
    ensures s.pcs[u].e <= 0 || s.pcs[u].e <= SweepOf(s, a).value.now
  {
    hide KeyOK, FlusherOK, SweepOf;
    assert PcOK(s, u, s.pcs[u]);
    NoEarlier(s, a, s.pcs[u].cur);
  }

  /** A flush sweeps with a clock that has reached the expiry time of a Take under way. */
  ghost predicate Straddles(s: System, a: Action) {
    SweepOf(s, a).Some? &&
    exists u :: 0 <= u < |s.pcs| && Holding(s.pcs[u]) && (s.pcs[u].e <= 0 || s.pcs[u].e <= SweepOf(s, a).value.now)
  }

  /** So where no sweep straddles a Take, no Take counts too late. */
  lemma InTimeIsKept(run: seq<System>, acts: seq<Action>, j: nat, k: Key)
    requires Run(run, acts) && j < |acts| && forall i :: 0 <= i < j ==> !Straddles(run[i], acts[i])
    ensures !LateTake(run, acts, j, k)
  {
    hide Step, SweepOf;
    if LateTake(run, acts, j, k) {
      var t := acts[j].t;
      var m: nat :| SweptHeld(run, acts, t, j, m, k, run[j].pcs[t].wid);
      RunInv(run, acts, m);
      SweptOnlyWhenDue(run[m], acts[m], t);
    }
  }

  // ---------------------------------------------------------------- the whole account

  /** Nothing from outside touches the key, and its EVALs are applied exactly when they succeed. */
  ghost predicate Undisturbed(s: System, a: Action, k: Key) {
    && ((a.Elsewhere? || a.Expiry?) ==> a.key != k)
    && (SettledKey(s, a) == Some(k) ==> Clean(s, a))
  }

  /** When nothing else disturbs the key, the Redis count plus the buffered count less what is in flight is
      the number of hits exactly if no Take of the key counted after its window was swept. */
  lemma HitsAreKept(run: seq<System>, acts: seq<Action>, k: Key)
    requires Run(run, acts) && forall i :: 0 <= i < |acts| ==> Undisturbed(run[i], acts[i], k)
    ensures var b := BookOf(run[|acts|], k);
            b.redis + Local(run[|acts|], k) - b.inflight == b.tally.hits
            <==> forall j: nat :: j < |acts| ==> !LateTake(run, acts, j, k)
  {
    hide Step, Inv, Undisturbed, LateTake;
    Accounts(run, acts, |acts|, k);
    UndisturbedSoFar(run, acts, |acts|, k);
    LostExactly(run, acts, |acts|, k);
    NoneLate(run, acts, |acts|, k);
  }

  lemma {:induction false} NoneLate(run: seq<System>, acts: seq<Action>, n: nat, k: Key)
    ensures LateTakes(run, acts, n, k) == 0 <==> forall j: nat :: j < n ==> !LateTake(run, acts, j, k)
  {
    hide LateTake;
    if n > 0 { NoneLate(run, acts, n - 1, k); }
  }

  lemma {:induction false} UndisturbedSoFar(run: seq<System>, acts: seq<Action>, j: nat, k: Key)
    requires Run(run, acts) && j < |run| && forall i :: 0 <= i < j ==> Undisturbed(run[i], acts[i], k)
    ensures BookOf(run[j], k).tally.ext == 0 && BookOf(run[j], k).expired == 0 && BookOf(run[j], k).tally.dup == 0
  {
    hide Step, Inv, Clean;
    if j > 0 {
      UndisturbedSoFar(run, acts, j - 1, k);
      RunInv(run, acts, j - 1);
      OutsideOnly(run[j - 1], acts[j - 1], run[j], k);
      if acts[j - 1].Settle? { SettleDup(run[j - 1], acts[j - 1], run[j], k); }
      else { DupElsewhere(run[j - 1], acts[j - 1], run[j], k); }
    }
  }

  // ---------------------------------------------------------------- a lost hit

  const CUR := Key("k:60")
  const PREV := Key("k:0")
  const CALL := TakeCall(CUR, PREV, 180)
  const HELD := Cell(CUR, Fresh(0, 180))
  const LATE := map[PREV := 1]
  const SEEN := Cell(PREV, Fresh(0, 0))

  const L1 := System(map[], [], map[], [CALL])
  const L2 := System(map[], [], map[], [TakeGet(CUR, PREV, 180)])
  const L3 := System(map[], [], map[], [TakeGot(CUR, PREV, 180, 0)])
  const L4 := System(map[CUR := 0], [HELD], map[], [TakePrevGet(CUR, PREV, 180, 0)])
  const L5 := System(map[CUR := 0], [HELD], map[], [TakePrevGet(CUR, PREV, 180, 0), FlushCall])
  const L6 := System(map[], [HELD], map[], [TakePrevGet(CUR, PREV, 180, 0), Done])
  const L7 := System(map[], [HELD], map[], [TakePrevGot(CUR, PREV, 180, 0, 0), Done])
  const L8 := System(LATE, [Cell(CUR, Counted(HELD.w)), SEEN], map[CUR := EMPTY_BOOK.(tally := EMPTY_BOOK.tally.(hits := 1, lost := 1))], [Done, Done])

  lemma LooksUp()
    ensures Step(INIT, Spawn(CALL), L1) && Step(L1, TakeBegin(0, Quiet), L2) && Step(L2, Get(0), L3)
  {
  }

  lemma Names()
    ensures CUR != PREV
  {
    assert CUR.name[2] != PREV.name[2];
  }

  lemma Waits()
    ensures Step(L3, TakeResume(0, Quiet), L4) && Step(L4, Spawn(FlushCall), L5)
  {
    Names();
    assert L4 == Goto(Stored(L3, CUR, 0, 180), 0, TakePrevGet(CUR, PREV, 180, 0));
  }

  lemma IsSwept()
    ensures Step(L5, FlushBegin(1, [], 180), L6)
  {
    assert MarkAll(L5, 1, []) == L5;
    assert Stale(At(L5, CUR), 180);
    assert Swept(L5, 180) == L5.(windows := map[]);
    assert JobsFor(L5, []) == [];
  }

  lemma CountsTooLate()
    ensures Step(L6, Get(0), L7) && Step(L7, TakeFinish(0, Quiet), L8)
  {
    Names();
    var s1 := Stored(L7, PREV, 0, 0);
    assert s1.windows == LATE && s1.heap == [HELD, SEEN];
    assert L8 == Goto(Hit(s1, CUR, 0), 0, Done);
  }

  /** A Take that waits for the previous window's count while a flush sweeps at its expiry time
      counts its hit on a window no one will flush: the hit reaches neither Redis nor the buffer. */
  lemma LostHit()
    ensures exists run: seq<System>, acts: seq<Action> :: Run(run, acts) && run[|acts|] == L8
    ensures BookOf(L8, CUR).tally.hits == 1 && BookOf(L8, CUR).redis == 0 && Local(L8, CUR) == 0
    ensures forall t :: 0 <= t < |L8.pcs| ==> L8.pcs[t] == Done
  {
    hide Step;
    LooksUp();
    Waits();
    IsSwept();
    CountsTooLate();
    Names();
    var run := [INIT, L1, L2, L3, L4, L5, L6, L7, L8];
    var acts := [Spawn(CALL), TakeBegin(0, Quiet), Get(0), TakeResume(0, Quiet), Spawn(FlushCall),
                 FlushBegin(1, [], 180), Get(0), TakeFinish(0, Quiet)];
    assert Run(run, acts);
  }
}
