/** What a Close that loses the closed flag returns to. */
module PoolClose {
  import opened PoolSystem
  import opened PoolRuns

  ghost predicate Wins(run: seq<Pool>, acts: seq<Action>, w: nat) {
    w < |acts| && w < |run| && acts[w].Swap? && !run[w].closed
  }

  ghost predicate DrainBefore(acts: seq<Action>, i: nat) { exists d: nat :: d < i && d < |acts| && acts[d].Drain? }

  /** The flag is set by a Swap and stays set, and while it is set only a Drain touches the list. */
  lemma FlagStep(s: Pool, a: Action, r: Pool)
    requires Step(s, a, r)
    ensures s.closed ==> r.closed
    ensures !s.closed && r.closed ==> a.Swap?
    ensures s.closed && !a.Drain? ==> r.idle == s.idle
    ensures a.Drain? || (a.Swap? && !s.closed) ==> r.idle == if a.Drain? then [] else s.idle
    ensures a.Swap? ==> r.closed && r.idle == s.idle
  {
  }

  lemma {:induction false} SetBySwap(run: seq<Pool>, acts: seq<Action>, cap: nat, maxIdle: nat, i: nat)
    requires Run(run, acts, cap, maxIdle) && i < |run| && run[i].closed
    ensures exists w: nat :: w < i && Wins(run, acts, w)
  {
    hide Step;
    if i > 0 {
      FlagStep(run[i - 1], acts[i - 1], run[i]);
      if run[i - 1].closed { SetBySwap(run, acts, cap, maxIdle, i - 1); } else { assert Wins(run, acts, i - 1); }
    }
  }

  lemma {:induction false} StaysClosed(run: seq<Pool>, acts: seq<Action>, cap: nat, maxIdle: nat, i: nat, j: nat)
    requires Run(run, acts, cap, maxIdle) && i <= j < |run| && run[i].closed
    ensures run[j].closed
  {
    hide Step;
    if i < j {
      StaysClosed(run, acts, cap, maxIdle, i, j - 1);
      FlagStep(run[j - 1], acts[j - 1], run[j]);
    }
  }

  lemma {:induction false} Frozen(run: seq<Pool>, acts: seq<Action>, cap: nat, maxIdle: nat, i: nat, j: nat)
    requires Run(run, acts, cap, maxIdle) && i <= j < |run| && run[i].closed
    requires forall d :: i <= d < j ==> !acts[d].Drain?
    ensures run[j].idle == run[i].idle
  {
    hide Step;
    if i < j {
      Frozen(run, acts, cap, maxIdle, i, j - 1);
      StaysClosed(run, acts, cap, maxIdle, i, j - 1);
      FlagStep(run[j - 1], acts[j - 1], run[j]);
    }
  }

  /** A list that is empty under a set flag stays empty. */
  lemma {:induction false} StaysEmpty(run: seq<Pool>, acts: seq<Action>, cap: nat, maxIdle: nat, i: nat, j: nat)
    requires Run(run, acts, cap, maxIdle) && i <= j < |run| && run[i].closed && run[i].idle == []
    ensures run[j].idle == []
  {
    hide Step;
    if i < j {
      StaysEmpty(run, acts, cap, maxIdle, i, j - 1);
      StaysClosed(run, acts, cap, maxIdle, i, j - 1);
      FlagStep(run[j - 1], acts[j - 1], run[j]);
    }
  }

  lemma DrainsAreClosed(run: seq<Pool>, acts: seq<Action>, cap: nat, maxIdle: nat, d: nat)
    requires Run(run, acts, cap, maxIdle) && d < |acts| && acts[d].Drain?
    ensures run[d].closed
  {
    RunInv(run, acts, cap, maxIdle, d);
    DrainPart(run[d]);
    assert Step(run[d], acts[d], run[d + 1]);
  }

  /** A Close that finds the flag set returns to an empty list exactly if the Close that set it, at step
      w, has already taken the list, or found nothing on it; the list then stays empty. */
  lemma LosingClose(run: seq<Pool>, acts: seq<Action>, cap: nat, maxIdle: nat, w: nat, i: nat)
    requires Run(run, acts, cap, maxIdle) && w < i < |acts| && Wins(run, acts, w) && acts[i].Swap?
    ensures run[i].closed && run[i + 1].threads[acts[i].t].pc == Over
    ensures run[i + 1].idle == [] <==> DrainBefore(acts, i) || run[w].idle == []
    ensures run[i + 1].idle == [] ==> forall j :: i < j < |run| ==> run[j].idle == []
  {
    FlagStep(run[w], acts[w], run[w + 1]);
    StaysClosed(run, acts, cap, maxIdle, w + 1, i);
    LoserReturns(run[i], acts[i], run[i + 1]);
    hide Step;
    if DrainBefore(acts, i) {
      var d: nat :| d < i && d < |acts| && acts[d].Drain?;
      FlagStep(run[d], acts[d], run[d + 1]);
      DrainsAreClosed(run, acts, cap, maxIdle, d);
      StaysClosed(run, acts, cap, maxIdle, d, d + 1);
      StaysEmpty(run, acts, cap, maxIdle, d + 1, i + 1);
    } else {
      Frozen(run, acts, cap, maxIdle, w + 1, i);
    }
    forall j | i < j < |run| && run[i + 1].idle == [] ensures run[j].idle == [] {
      StaysEmpty(run, acts, cap, maxIdle, i + 1, j);
    }
  }

  lemma LoserReturns(s: Pool, a: Action, r: Pool)
    requires Step(s, a, r) && a.Swap? && s.closed
    ensures a.t < |r.threads| && r.threads[a.t].pc == Over && r.closed && r.idle == s.idle
  {
  }
}
