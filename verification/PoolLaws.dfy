/** Which socket a command gets and what becomes of it: the newest young one, parked again exactly if it is fit for
    reuse and the open pool has room. */
module PoolLaws {
  import opened Basics
  import opened PoolSystem
  import opened PoolInvariant
  import opened PoolSteps
  import opened PoolRuns

  // ---------------------------------------------------------------- splitting the list

  /** Two entries of `part` come from `list` in the same order. */
  ghost predicate SameOrder(part: seq<nat>, list: seq<nat>) {
    forall p, q :: 0 <= p < q < |part| ==> Before(list, part[p], part[q])
  }

  ghost predicate Before(list: seq<nat>, x: nat, y: nat) {
    exists i, j :: 0 <= i < j < |list| && list[i] == x && list[j] == y
  }

  lemma {:induction false} KeepOrder(list: seq<nat>, young: set<nat>, inside: bool)
    ensures SameOrder(Keep(list, young, inside), list)
  {
    if list != [] {
      var n := |list| - 1;
      KeepOrder(list[..n], young, inside);
      var part, whole := Keep(list[..n], young, inside), Keep(list, young, inside);
      forall p, q | 0 <= p < q < |whole| ensures Before(list, whole[p], whole[q]) {
        assert whole[p] == part[p] && part[p] in part;
        KeepMembers(list[..n], young, inside, part[p]);
        if q < |part| {
          assert Before(list[..n], part[p], part[q]);
          var i, j :| 0 <= i < j < |list[..n]| && list[..n][i] == part[p] && list[..n][j] == part[q];
          assert list[i] == whole[p] && list[j] == whole[q];
        } else {
          var i :| 0 <= i < n && list[..n][i] == part[p];
          assert list[i] == whole[p] && list[n] == whole[q];
        }
      }
    }
  }

  /** Entry p is young and none after it is. */
  predicate YoungestAt(list: seq<nat>, young: set<nat>, p: nat) {
    p < |list| && list[p] in young && forall q :: p < q < |list| ==> list[q] !in young
  }

  lemma {:induction false} KeepNewest(list: seq<nat>, young: set<nat>)
    requires Keep(list, young, true) != []
    ensures exists p: nat :: YoungestAt(list, young, p) && Newest(Keep(list, young, true)) == Some(list[p])
  {
    var n := |list| - 1;
    if list[n] in young { assert YoungestAt(list, young, n); }
    else {
      KeepNewest(list[..n], young);
      var p: nat :| YoungestAt(list[..n], young, p) && Newest(Keep(list[..n], young, true)) == Some(list[..n][p]);
      assert YoungestAt(list, young, p);
    }
  }

  // ---------------------------------------------------------------- borrowing

  /** What a borrow leaves on the list and takes from it. */
  ghost predicate Sorts(idle: seq<nat>, young: set<nat>, left: seq<nat>, stale: seq<nat>, got: Option<nat>) {
    && (forall k :: k in stale <==> k in idle && k !in young)
    && (forall k :: k in left <==> k in idle && k in young && got != Some(k))
    && SameOrder(left, idle)
    && (got.None? ==> forall k :: k in idle ==> k !in young)
    && (got.Some? ==> exists p: nat :: YoungestAt(idle, young, p) && idle[p] == got.value)
  }

  lemma ButLast(list: seq<nat>)
    requires list != [] && Distinct(list)
    ensures forall k :: k in list[..|list| - 1] <==> k in list && Newest(list) != Some(k)
  {
    var n := |list| - 1;
    DistinctPrefix(list, n);
    assert list[..n + 1] == list;
    forall k ensures k in list[..n] <==> k in list && Newest(list) != Some(k) {
      assert k in list <==> k in list[..n] || k == list[n];
    }
  }

  lemma ButLastOrder(part: seq<nat>, list: seq<nat>)
    requires part != [] && SameOrder(part, list)
    ensures SameOrder(part[..|part| - 1], list)
  {
    var less := part[..|part| - 1];
    forall p, q | 0 <= p < q < |less| ensures Before(list, less[p], less[q]) {
      assert less[p] == part[p] && less[q] == part[q];
    }
  }

  lemma SurvivorsSort(idle: seq<nat>, young: set<nat>)
    requires Distinct(idle)
    ensures var survivors := Keep(idle, young, true);
            Sorts(idle, young, if survivors == [] then [] else survivors[..|survivors| - 1], Keep(idle, young, false), Newest(survivors))
  {
    hide Keep, Distinct, SameOrder;
    var survivors := Keep(idle, young, true);
    forall k ensures k in survivors <==> k in idle && k in young { KeepMembers(idle, young, true, k); }
    forall k ensures k in Keep(idle, young, false) <==> k in idle && k !in young { KeepMembers(idle, young, false, k); }
    KeepOrder(idle, young, true);
    KeepDistinct(idle, young, true);
    if survivors != [] {
      KeepNewest(idle, young);
      ButLast(survivors);
      ButLastOrder(survivors, idle);
    } else { NoneInOrder(idle); }
  }

  lemma NoneInOrder(list: seq<nat>)
    ensures SameOrder([], list)
  {
  }

  /** Borrowing from an open pool gives the newest young socket if there is one and else none, takes the stale ones
      away, and leaves the other young ones in their order. A closed pool gives nothing and keeps its list. */
  lemma BorrowSorts(run: seq<Pool>, acts: seq<Action>, cap: nat, maxIdle: nat, i: nat, t: nat, young: set<nat>)
    requires Run(run, acts, cap, maxIdle) && i < |acts| && acts[i] == TakeIdle(t, young)
    ensures On(run[i + 1], t)
    ensures if run[i].closed then PcOf(run[i + 1], t) == Freeing && run[i + 1].idle == run[i].idle && run[i + 1].socks == run[i].socks
            else PcOf(run[i + 1], t).Sweeping?
                 && run[i + 1].threads[t].fromIdle == PcOf(run[i + 1], t).got.Some?
                 && Sorts(run[i].idle, young, run[i + 1].idle, PcOf(run[i + 1], t).stale, PcOf(run[i + 1], t).got)
  {
    hide Sorts;
    assert Step(run[i], acts[i], run[i + 1]);
    ListIsDistinct(run, acts, cap, maxIdle, i);
    SurvivorsSort(run[i].idle, young);
  }

  lemma ListIsDistinct(run: seq<Pool>, acts: seq<Action>, cap: nat, maxIdle: nat, i: nat)
    requires Run(run, acts, cap, maxIdle) && i < |run|
    ensures Distinct(run[i].idle)
  {
    hide Step, TurnsOK, DrainOK, SockOK, PcOK, WatchOK;
    RunInv(run, acts, cap, maxIdle, i);
  }

  /** After its sweep a borrower has the socket it got, and dials exactly if it got none. */
  lemma DialsIff(run: seq<Pool>, acts: seq<Action>, cap: nat, maxIdle: nat, i: nat, t: nat)
    requires Run(run, acts, cap, maxIdle) && i < |acts| && acts[i] == SweepDone(t)
    ensures On(run[i], t) && On(run[i + 1], t) && PcOf(run[i], t).Sweeping?
    ensures PcOf(run[i + 1], t) == if PcOf(run[i], t).got.Some? then Holding(PcOf(run[i], t).got.value) else Dialing
  {
    assert Step(run[i], acts[i], run[i + 1]);
  }

  /** An attempt that skips the list dials exactly if the pool is open. */
  lemma SkipDialsIff(run: seq<Pool>, acts: seq<Action>, cap: nat, maxIdle: nat, i: nat, t: nat)
    requires Run(run, acts, cap, maxIdle) && i < |acts| && acts[i] == SkipIdle(t)
    ensures On(run[i + 1], t) && PcOf(run[i + 1], t) == if run[i].closed then Freeing else Dialing
    ensures run[i + 1].idle == run[i].idle
  {
    assert Step(run[i], acts[i], run[i + 1]);
  }

  // ---------------------------------------------------------------- giving back

  /** A do leaves its socket fit for reuse exactly if it ended clean, left nothing unread, and neither did its context
      fire nor its deadline pass. */
  lemma FitIff(run: seq<Pool>, acts: seq<Action>, cap: nat, maxIdle: nat, i: nat, t: nat, clean: bool, unread: nat, late: bool)
    requires Run(run, acts, cap, maxIdle) && i + 1 < |acts| && acts[i] == DoEnds(t, clean, unread) && acts[i + 1] == Check(t, late)
    ensures On(run[i], t) && PcOf(run[i], t).Doing? && On(run[i + 2], t)
    ensures PcOf(run[i + 2], t) == Releasing(PcOf(run[i], t).sock, clean && unread == 0 && !run[i].threads[t].fired && !late)
  {
    assert Step(run[i], acts[i], run[i + 1]) && Step(run[i + 1], acts[i + 1], run[i + 2]);
  }

  /** A socket is parked at the end of the list exactly if it is fit and the open pool has room; else it is closed. */
  lemma ParksIff(run: seq<Pool>, acts: seq<Action>, cap: nat, maxIdle: nat, i: nat, t: nat)
    requires Run(run, acts, cap, maxIdle) && i < |acts| && acts[i] == Park(t)
    ensures On(run[i], t) && PcOf(run[i], t).Releasing? && On(run[i + 1], t)
    ensures var k := PcOf(run[i], t).sock;
            if PcOf(run[i], t).reusable && !run[i].closed && |run[i].idle| < maxIdle
            then run[i + 1].idle == run[i].idle + [k] && PcOf(run[i + 1], t) == Freeing
            else run[i + 1].idle == run[i].idle && PcOf(run[i + 1], t) == Dropping(k)
  {
    assert Step(run[i], acts[i], run[i + 1]);
    hide Inv;
    RunInv(run, acts, cap, maxIdle, i);
  }

  /** The socket parked last is the one the next borrow gets, if it is still young and the list still ends in it. */
  lemma ParkedIsNext(run: seq<Pool>, acts: seq<Action>, cap: nat, maxIdle: nat, i: nat, j: nat, t: nat, u: nat, young: set<nat>)
    requires Run(run, acts, cap, maxIdle) && i < j < |acts| && acts[i] == Park(t) && acts[j] == TakeIdle(u, young)
    requires run[i + 1].idle != run[i].idle && run[j].idle == run[i + 1].idle && !run[j].closed
    requires On(run[i], t) && PcOf(run[i], t).Releasing? && PcOf(run[i], t).sock in young
    ensures On(run[j + 1], u) && PcOf(run[j + 1], u).Sweeping? && PcOf(run[j + 1], u).got == Some(PcOf(run[i], t).sock)
  {
    hide Step;
    ParksIff(run, acts, cap, maxIdle, i, t);
    BorrowSorts(run, acts, cap, maxIdle, j, u, young);
    var list := run[j].idle;
    assert list[|list| - 1] == PcOf(run[i], t).sock;
    assert YoungestAt(list, young, |list| - 1);
  }
}
