/** What the accounting invariant gives over whole runs of the write-back buffer. */
module WindowRuns {
  import opened Basics
  import opened WindowSystem
  import opened WindowInvariant
  import opened WindowSteps

  lemma {:induction false} RunInv(run: seq<System>, acts: seq<Action>, i: nat)
    requires Run(run, acts) && i < |run|
    ensures Inv(run[i])
  {
    hide Inv, Step;
    if i == 0 { InvInit(); } else { RunInv(run, acts, i - 1); StepKeeps(run[i - 1], acts[i - 1], run[i]); }
  }

  /** In every run, for every window key: what Redis was told and kept or dropped, what the buffer
      holds and what was lost add up to the hits, what other writers added, and what Redis has been
      told but the buffer does not know of. The in-flight mark never exceeds the buffered count. */
  lemma Accounts(run: seq<System>, acts: seq<Action>, i: nat, k: Key)
    requires Run(run, acts) && i < |run|
    ensures var b := BookOf(run[i], k);
            b.redis + b.expired + Local(run[i], k) + b.tally.lost == b.tally.hits + b.inflight + b.tally.dup + b.tally.ext
    ensures k in run[i].windows ==> Live(run[i], k) && 0 <= At(run[i], k).flushDelta <= At(run[i], k).localDelta
  {
    hide Step;
    RunInv(run, acts, i);
    assert KeyOK(run[i], k);
    if k in run[i].windows { assert WindowOK(At(run[i], k)); }
  }

  /** The estimate a Take or Peek works with never counts a hit twice, whatever is in flight and
      however old the last GET is. */
  lemma NeverOvercounts(run: seq<System>, acts: seq<Action>, i: nat, k: Key)
    requires Run(run, acts) && i < |run| && Live(run[i], k)
    ensures var b := BookOf(run[i], k);
            At(run[i], k).redisKnown + At(run[i], k).localDelta <= b.tally.hits - b.tally.lost + b.tally.dup + b.tally.ext
  {
    hide Step;
    RunInv(run, acts, i);
    assert KeyOK(run[i], k);
  }

  /** A flush that waits for Redis finds its windows again, still marked with the deltas it sent, and
      no other flush has any of them in flight. */
  lemma FlushesDoNotMeet(run: seq<System>, acts: seq<Action>, i: nat, t: nat, m: nat)
    requires Run(run, acts) && i < |run| && t < |run[i].pcs| && run[i].pcs[t].Evaluating? && m < |run[i].pcs[t].jobs|
    ensures var job := run[i].pcs[t].jobs[m];
            && Live(run[i], job.key) && At(run[i], job.key).flushDelta == job.delta > 0
            && (forall n :: 0 <= n < |run[i].pcs[t].jobs| && n != m ==> run[i].pcs[t].jobs[n].key != job.key)
            && forall u, n :: 0 <= u < |run[i].pcs| && u != t && run[i].pcs[u].Evaluating? && 0 <= n < |run[i].pcs[u].jobs|
                 ==> run[i].pcs[u].jobs[n].key != job.key
  {
    hide Step, KeyOK, FlusherOK;
    RunInv(run, acts, i);
    var s := run[i];
    assert PcOK(s, t, s.pcs[t]) && JobOK(s, t, s.pcs[t].jobs[m]);
    forall u, n | 0 <= u < |s.pcs| && u != t && s.pcs[u].Evaluating? && 0 <= n < |s.pcs[u].jobs|
      ensures s.pcs[u].jobs[n].key != s.pcs[t].jobs[m].key
    {
      assert PcOK(s, u, s.pcs[u]) && JobOK(s, u, s.pcs[u].jobs[n]);
    }
  }

  /** A window is marked exactly while a flush has its key in flight; so once no flush is waiting for
      Redis, nothing is marked and nothing is unaccounted for. */
  lemma NothingStaysMarked(run: seq<System>, acts: seq<Action>, i: nat, k: Key)
    requires Run(run, acts) && i < |run| && forall t :: 0 <= t < |run[i].pcs| ==> !run[i].pcs[t].Evaluating?
    ensures Live(run[i], k) ==> At(run[i], k).flushDelta == 0
    ensures BookOf(run[i], k).inflight == 0
  {
    hide Step;
    RunInv(run, acts, i);
    assert KeyOK(run[i], k) && FlusherOK(run[i], k);
  }

  // ---------------------------------------------------------------- doubled deltas

  /** The EVAL ran in Redis exactly as often as it was acknowledged. */
  ghost predicate Clean(s: System, a: Action) {
    a.Settle? && a.t < |s.pcs| && s.pcs[a.t].Evaluating? && s.pcs[a.t].jobs != [] ==>
      s.pcs[a.t].applied == if a.ok then s.pcs[a.t].jobs[0].delta else 0
  }

  function SettledKey(s: System, a: Action): Option<Key> {
    if a.Settle? && a.t < |s.pcs| && s.pcs[a.t].Evaluating? && s.pcs[a.t].jobs != [] then Some(s.pcs[a.t].jobs[0].key) else None
  }

  lemma SettleDup(s: System, a: Action, r: System, k: Key)
    requires Inv(s) && Step(s, a, r) && a.Settle?
    ensures BookOf(s, k).tally.dup <= BookOf(r, k).tally.dup
    ensures BookOf(r, k).tally.dup == BookOf(s, k).tally.dup <==> (Clean(s, a) || SettledKey(s, a) != Some(k))
  {
    hide KeyOK, FlusherOK;
    var pc := s.pcs[a.t];
    assert PcOK(s, a.t, pc) && JobOK(s, a.t, pc.jobs[0]);
    NoneNegative(s, pc.jobs[0].key);
  }

  /** Nothing but the outcome of an EVAL is booked as doubled, and a hit is booked as lost only when
      the window it counts on is not the mapped one. */
  ghost predicate BooksOf(s: System, r: System, k: Key) { Aside(s, r, k) && BookOf(r, k).tally.lost == BookOf(s, k).tally.lost }

  ghost predicate Aside(s: System, r: System, k: Key) {
    BookOf(r, k).tally.dup == BookOf(s, k).tally.dup && BookOf(r, k).tally.ext == BookOf(s, k).tally.ext && BookOf(r, k).expired == BookOf(s, k).expired
  }

  lemma NextJobBooks(s: System, t: nat, jobs: seq<Job>, now: int, probe: bool, k: Key)
    requires t < |s.pcs| && forall x :: x in s.windows ==> Live(s, x)
    ensures BooksOf(s, NextJob(s, t, jobs, now, probe), k)
  {
  }

  lemma FlushBooks(s: System, t: nat, order: seq<Key>, now: int, probe: bool, r: System, k: Key)
    requires t < |s.pcs| && StartsFlush(s, t, order, now, probe, r)
    ensures BooksOf(s, r, k)
  {
    hide NextJob;
    NextJobBooks(MarkAll(s, t, order), t, JobsFor(s, order), now, probe, k);
  }

  lemma EndsBooks(s: System, t: nat, ending: Ending, r: System, k: Key)
    requires t < |s.pcs| && Ends(s, t, ending, r)
    ensures BooksOf(s, r, k)
  {
    hide StartsFlush;
    if ending.Flush? { FlushBooks(s, t, ending.order, ending.now, ending.probe, r, k); }
  }

  lemma TakesBooks(s: System, t: nat, cur: Key, prev: Key, e: int, wid: nat, ending: Ending, r: System, k: Key)
    requires t < |s.pcs| && wid < |s.heap| && TakesFrom(s, t, cur, prev, e, wid, ending, r)
    ensures Aside(s, r, k)
    ensures cur in s.windows && s.windows[cur] == wid ==> BooksOf(s, r, k)
  {
    hide Ends;
    if prev in s.windows { EndsBooks(Hit(s, cur, wid), t, ending, r, k); }
  }

  lemma PeeksBooks(s: System, t: nat, prev: Key, ending: Ending, r: System, k: Key)
    requires t < |s.pcs| && PeeksFrom(s, t, prev, ending, r)
    ensures BooksOf(s, r, k)
  {
    hide Ends;
    if prev in s.windows { EndsBooks(s, t, ending, r, k); }
  }

  lemma BeginBooks(s: System, a: Action, r: System, k: Key)
    requires Step(s, a, r) && (a.TakeBegin? || a.PeekBegin?)
    ensures BooksOf(s, r, k)
  {
    hide TakesFrom, PeeksFrom;
    var pc := s.pcs[a.t];
    if Live(s, pc.cur) {
      var s1 := Written(s, s.windows[pc.cur], Raised(At(s, pc.cur), pc.e));
      assert BookOf(s1, k) == BookOf(s, k);
      if a.PeekBegin? { PeeksBooks(s1, a.t, pc.prev, a.ending, r, k); }
      else if At(s, pc.cur).localDelta != 0 { TakesBooks(s1, a.t, pc.cur, pc.prev, pc.e, s.windows[pc.cur], a.ending, r, k); }
    }
  }

  lemma ResumeBooks(s: System, a: Action, r: System, k: Key)
    requires Step(s, a, r) && (a.TakeResume? || a.PeekResume? || a.PeekFinish?)
    ensures BooksOf(s, r, k)
  {
    hide TakesFrom, PeeksFrom, Ends;
    var pc := s.pcs[a.t];
    var s1 := if a.PeekFinish? then Stored(s, pc.prev, pc.known, 0) else Stored(s, pc.cur, pc.known, pc.e);
    assert BookOf(s1, k) == BookOf(s, k);
    if a.TakeResume? { TakesBooks(s1, a.t, pc.cur, pc.prev, pc.e, s1.windows[pc.cur], a.ending, r, k); }
    else if a.PeekResume? { PeeksBooks(s1, a.t, pc.prev, a.ending, r, k); }
    else { EndsBooks(s1, a.t, a.ending, r, k); }
  }

  lemma FinishBooks(s: System, t: nat, ending: Ending, r: System, k: Key)
    requires Step(s, TakeFinish(t, ending), r)
    ensures Aside(s, r, k)
    ensures s.pcs[t].cur in s.windows && s.windows[s.pcs[t].cur] == s.pcs[t].wid ==> BooksOf(s, r, k)
  {
    hide Ends;
    var s1 := Stored(s, s.pcs[t].prev, s.pcs[t].known, 0);
    assert BookOf(s1, k) == BookOf(s, k);
    EndsBooks(Hit(s1, s.pcs[t].cur, s.pcs[t].wid), t, ending, r, k);
  }

  lemma RestBooks(s: System, a: Action, r: System, k: Key)
    requires Step(s, a, r) && !a.TakeBegin? && !a.PeekBegin? && !a.TakeResume? && !a.PeekResume? && !a.PeekFinish? && !a.TakeFinish?
    ensures BookOf(r, k).tally.lost == BookOf(s, k).tally.lost && (!a.Settle? ==> BookOf(r, k).tally.dup == BookOf(s, k).tally.dup)
    ensures ((a.Elsewhere? || a.Expiry?) ==> a.key != k) ==> BookOf(r, k).tally.ext == BookOf(s, k).tally.ext && BookOf(r, k).expired == BookOf(s, k).expired
  {
    hide StartsFlush, NextJob;
    if a.FlushBegin? { FlushBooks(s, a.t, a.order, a.now, false, r, k); }
    else if a.Settle? {
      var pc := s.pcs[a.t];
      NextJobBooks(Settled(s, pc.jobs[0], a.ok, pc.applied, pc.reply), a.t, pc.jobs[1..], pc.now, pc.probe, k);
    }
  }

  lemma DupElsewhere(s: System, a: Action, r: System, k: Key)
    requires Step(s, a, r) && !a.Settle?
    ensures BookOf(r, k).tally.dup == BookOf(s, k).tally.dup
  {
    hide Step;
    if a.TakeBegin? || a.PeekBegin? { BeginBooks(s, a, r, k); }
    else if a.TakeResume? || a.PeekResume? || a.PeekFinish? { ResumeBooks(s, a, r, k); }
    else if a.TakeFinish? { FinishBooks(s, a.t, a.ending, r, k); }
    else { RestBooks(s, a, r, k); }
  }

  lemma OutsideOnly(s: System, a: Action, r: System, k: Key)
    requires Step(s, a, r) && ((a.Elsewhere? || a.Expiry?) ==> a.key != k)
    ensures BookOf(r, k).tally.ext == BookOf(s, k).tally.ext && BookOf(r, k).expired == BookOf(s, k).expired
  {
    hide Step;
    if a.TakeBegin? || a.PeekBegin? { BeginBooks(s, a, r, k); }
    else if a.TakeResume? || a.PeekResume? || a.PeekFinish? { ResumeBooks(s, a, r, k); }
    else if a.TakeFinish? { FinishBooks(s, a.t, a.ending, r, k); }
    else { RestBooks(s, a, r, k); }
  }

  lemma {:induction false} DupGrows(run: seq<System>, acts: seq<Action>, i: nat, j: nat, k: Key)
    requires Run(run, acts) && i <= j < |run|
    ensures BookOf(run[i], k).tally.dup <= BookOf(run[j], k).tally.dup
  {
    hide Step, Inv;
    if i < j {
      DupGrows(run, acts, i, j - 1, k);
      RunInv(run, acts, j - 1);
      if acts[j - 1].Settle? { SettleDup(run[j - 1], acts[j - 1], run[j], k); }
      else { DupElsewhere(run[j - 1], acts[j - 1], run[j], k); }
    }
  }

  /** Nothing is counted twice in Redis exactly when every EVAL was applied once if it succeeded and
      not at all if it failed. */
  lemma NothingDoubled(run: seq<System>, acts: seq<Action>)
    requires Run(run, acts)
    ensures (forall k :: BookOf(run[|acts|], k).tally.dup == 0) <==> (forall i :: 0 <= i < |acts| ==> Clean(run[i], acts[i]))
  {
    hide Step, Inv, Clean;
    if forall i :: 0 <= i < |acts| ==> Clean(run[i], acts[i]) {
      forall k ensures BookOf(run[|acts|], k).tally.dup == 0 { CleanSoFar(run, acts, |acts|, k); }
    } else {
      var i :| 0 <= i < |acts| && !Clean(run[i], acts[i]);
      DupShows(run, acts, i);
    }
  }

  lemma DupShows(run: seq<System>, acts: seq<Action>, i: nat)
    requires Run(run, acts) && i < |acts| && !Clean(run[i], acts[i])
    ensures exists k :: BookOf(run[|acts|], k).tally.dup > 0
  {
    hide Step, Inv;
    var k := SettledKey(run[i], acts[i]).value;
    RunInv(run, acts, i);
    SettleDup(run[i], acts[i], run[i + 1], k);
    DupGrows(run, acts, 0, i, k);
    DupGrows(run, acts, i + 1, |acts|, k);
    assert BookOf(run[|acts|], k).tally.dup > 0;
  }

  lemma {:induction false} CleanSoFar(run: seq<System>, acts: seq<Action>, j: nat, k: Key)
    requires Run(run, acts) && j < |run| && forall i :: 0 <= i < j ==> Clean(run[i], acts[i])
    ensures BookOf(run[j], k).tally.dup == 0
  {
    hide Step, Inv, Clean;
    if j > 0 {
      CleanSoFar(run, acts, j - 1, k);
      RunInv(run, acts, j - 1);
      if acts[j - 1].Settle? { SettleDup(run[j - 1], acts[j - 1], run[j], k); }
      else { DupElsewhere(run[j - 1], acts[j - 1], run[j], k); }
    }
  }
}
