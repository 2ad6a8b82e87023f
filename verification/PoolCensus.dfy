/** How many sockets can be open at once, those on their way to being closed included. */
module PoolCensus {
  import opened Basics
  import opened PoolSystem
  import opened PoolInvariant
  import opened PoolSteps
  import opened PoolRuns

  /** The sockets in a thread's hands. */
  function Carried(pc: Pc): nat { (if Uses(pc).Some? then 1 else 0) + |Bin(pc)| }

  function Load(threads: seq<Thread>): nat {
    if threads == [] then 0 else Load(threads[..|threads| - 1]) + Carried(threads[|threads| - 1].pc)
  }

  /** What a Close still has to close. */
  function Emptied(pc: Pc): nat { if pc.Emptying? then |pc.list| else 0 }

  function Unclosed(threads: seq<Thread>): nat {
    if threads == [] then 0 else Unclosed(threads[..|threads| - 1]) + Emptied(threads[|threads| - 1].pc)
  }

  ghost function OpenSockets(s: Pool): set<nat> { set k: nat | k < |s.socks| && s.socks[k].open }

  // ---------------------------------------------------------------- everything open is in some hand

  ghost function InHand(pc: Pc): set<nat> { (if Uses(pc).Some? then {Uses(pc).value} else {}) + Members(Bin(pc)) }

  ghost function Members(list: seq<nat>): set<nat> { set x | x in list }

  ghost function InHands(threads: seq<Thread>): set<nat> {
    if threads == [] then {} else InHands(threads[..|threads| - 1]) + InHand(threads[|threads| - 1].pc)
  }

  lemma {:induction false} FewMembers(list: seq<nat>)
    ensures |Members(list)| <= |list|
  {
    if list != [] {
      var n := |list| - 1;
      FewMembers(list[..n]);
      assert Members(list) == Members(list[..n]) + {list[n]};
    }
  }

  lemma FewTogether(a: set<nat>, b: set<nat>)
    ensures |a + b| <= |a| + |b|
  {
    assert |a + b| + |a * b| == |a| + |b|;
  }

  lemma FewInHand(pc: Pc)
    ensures |InHand(pc)| <= Carried(pc)
  {
    FewMembers(Bin(pc));
    var use: set<nat> := if Uses(pc).Some? then {Uses(pc).value} else {};
    FewTogether(use, Members(Bin(pc)));
  }

  lemma {:induction false} FewInHands(threads: seq<Thread>)
    ensures |InHands(threads)| <= Load(threads)
  {
    if threads != [] {
      var n := |threads| - 1;
      FewInHands(threads[..n]);
      FewInHand(threads[n].pc);
      FewTogether(InHands(threads[..n]), InHand(threads[n].pc));
    }
  }

  lemma {:induction false} HandOf(threads: seq<Thread>, t: nat, k: nat)
    requires t < |threads| && k in InHand(threads[t].pc)
    ensures k in InHands(threads)
  {
    var n := |threads| - 1;
    if t < n { HandOf(threads[..n], t, k); }
  }

  lemma OpenIsSomewhere(s: Pool, k: nat)
    requires Places(s) && k in OpenSockets(s)
    ensures k in Members(s.idle) + InHands(s.threads)
  {
    assert SockOK(s, k);
    match s.socks[k].place
    case IdleList =>
    case Owned(t) => HandOf(s.threads, t, k);
    case Trash(t) => HandOf(s.threads, t, k);
    case Gone =>
  }

  lemma OpenIsCarried(s: Pool)
    requires Places(s)
    ensures |OpenSockets(s)| <= |s.idle| + Load(s.threads)
  {
    hide Places, InHands;
    var all := Members(s.idle) + InHands(s.threads);
    forall k | k in OpenSockets(s) ensures k in all { OpenIsSomewhere(s, k); }
    FewMembers(s.idle);
    FewInHands(s.threads);
    FewTogether(Members(s.idle), InHands(s.threads));
    Within(OpenSockets(s), all);
  }

  lemma Within(a: set<nat>, b: set<nat>)
    requires a <= b
    ensures |a| <= |b|
  {
    assert |b - a| + |a| == |b| by { assert (b - a) + a == b; }
  }

  // ---------------------------------------------------------------- no hand carries more than a list

  ghost predicate Census(s: Pool) {
    && (forall t :: 0 <= t < |s.threads| && s.threads[t].pc.Sweeping? ==> |s.threads[t].pc.stale| <= s.maxIdle)
    && |s.idle| + Unclosed(s.threads) <= s.maxIdle
  }

  lemma {:induction false} UnclosedUpdate(threads: seq<Thread>, t: nat, th: Thread)
    requires t < |threads|
    ensures Unclosed(threads[t := th]) == Unclosed(threads) - Emptied(threads[t].pc) + Emptied(th.pc)
  {
    var n := |threads| - 1;
    var next := threads[t := th];
    if t < n {
      UnclosedUpdate(threads[..n], t, th);
      assert next[..n] == threads[..n][t := th];
    } else {
      assert next[..n] == threads[..n];
    }
  }

  lemma {:induction false} NoneUnclosed(threads: seq<Thread>)
    requires forall t :: 0 <= t < |threads| ==> !threads[t].pc.Emptying?
    ensures Unclosed(threads) == 0
  {
    if threads != [] { NoneUnclosed(threads[..|threads| - 1]); }
  }

  /** Until the flag is set no Close has taken anything. */
  lemma OpenHasNoneUnclosed(s: Pool)
    requires Inv(s) && !s.closed
    ensures Unclosed(s.threads) == 0
  {
    hide IdleOK, SockOK, PcOK, WatchOK;
    NoneUnclosed(s.threads);
  }

  /** What a step puts on the list, or in a Close's hands, comes from the two, unless it parks a socket. */
  ghost predicate ListFollows(s: Pool, t: nat, r: Pool) {
    && t < |s.threads| && t < |r.threads| && r.maxIdle == s.maxIdle
    && |r.idle| + Emptied(r.threads[t].pc) <= |s.idle| + Emptied(s.threads[t].pc)
    && (r.threads[t].pc.Sweeping? ==> |r.threads[t].pc.stale| <= |s.idle|
                                      || (s.threads[t].pc.Sweeping? && |r.threads[t].pc.stale| <= |s.threads[t].pc.stale|))
  }

  lemma BorrowList(s: Pool, a: Action, r: Pool)
    requires Step(s, a, r) && Borrows(a) && !a.TakeIdle?
    ensures ListFollows(s, a.t, r)
  {
    hide Keep;
  }

  lemma TakeList(s: Pool, a: Action, r: Pool)
    requires IdleOK(s) && Step(s, a, r) && a.TakeIdle?
    ensures ListFollows(s, a.t, r)
  {
    hide Keep, Distinct;
    KeepFewer(s, a.young);
    if !s.closed { TakenShape(s, a.t, a.young); }
  }

  lemma KeepFewer(s: Pool, young: set<nat>)
    requires IdleOK(s)
    ensures |Keep(s.idle, young, true)| <= |s.idle| && |Keep(s.idle, young, false)| <= |s.idle|
  {
    KeepDistinct(s.idle, young, true);
    KeepDistinct(s.idle, young, false);
  }

  lemma ReturnList(s: Pool, a: Action, r: Pool)
    requires Step(s, a, r) && Actor(a).Some? && !Borrows(a) && !(a.Park? && !s.closed)
    ensures ListFollows(s, a.t, r)
  {
    hide Keep;
  }

  lemma ParkList(s: Pool, a: Action, r: Pool)
    requires IdleOK(s) && Step(s, a, r) && a.Park? && !s.closed
    ensures r.maxIdle == s.maxIdle && |r.idle| <= s.maxIdle && a.t < |r.threads| && !r.threads[a.t].pc.Sweeping? && !r.threads[a.t].pc.Emptying?
  {
    hide Distinct;
  }

  lemma FollowsKeeps(s: Pool, t: nat, r: Pool)
    requires Census(s) && ListFollows(s, t, r) && |r.threads| == |s.threads| && r.threads == s.threads[t := r.threads[t]]
    ensures Census(r)
  {
    UnclosedUpdate(s.threads, t, r.threads[t]);
  }

  lemma ParkKeepsCensus(s: Pool, a: Action, r: Pool)
    requires Inv(s) && Census(s) && Step(s, a, r) && a.Park? && !s.closed
    ensures Census(r)
  {
    OneThread(s, a, r);
    UnclosedUpdate(s.threads, a.t, r.threads[a.t]);
    OpenHasNoneUnclosed(s);
    hide Step, SockOK, PcOK, WatchOK, DrainOK, TurnsOK;
    ParkList(s, a, r);
  }

  lemma SpawnKeepsCensus(s: Pool, a: Action, r: Pool)
    requires Census(s) && Step(s, a, r) && Actor(a).None?
    ensures Census(r)
  {
    hide Keep;
    if a.Command? || a.CloseClient? { assert r.threads[..|s.threads|] == s.threads; }
  }

  lemma CensusStep(s: Pool, a: Action, r: Pool)
    requires Inv(s) && Census(s) && Step(s, a, r)
    ensures Census(r)
  {
    hide Step, Census, ListFollows, IdleOK, SockOK, PcOK, WatchOK, DrainOK, TurnsOK, Borrows;
    if Actor(a).None? { SpawnKeepsCensus(s, a, r); }
    else if a.Park? && !s.closed { ParkKeepsCensus(s, a, r); }
    else {
      OneThread(s, a, r);
      if a.TakeIdle? { TakeList(s, a, r); } else if Borrows(a) { BorrowList(s, a, r); } else { ReturnList(s, a, r); }
      FollowsKeeps(s, a.t, r);
    }
  }

  lemma {:induction false} RunCensus(run: seq<Pool>, acts: seq<Action>, cap: nat, maxIdle: nat, i: nat)
    requires Run(run, acts, cap, maxIdle) && i < |run|
    ensures Census(run[i])
  {
    hide Step, Inv, Census;
    if i == 0 { NoneYet(cap, maxIdle); }
    else {
      RunCensus(run, acts, cap, maxIdle, i - 1);
      RunInv(run, acts, cap, maxIdle, i - 1);
      CensusStep(run[i - 1], acts[i - 1], run[i]);
    }
  }

  lemma NoneYet(cap: nat, maxIdle: nat)
    ensures Census(Init(cap, maxIdle))
  {
  }

  // ---------------------------------------------------------------- the bound

  /** What one turn can carry. */
  function Share(turns: nat, maxIdle: nat): nat { turns * (1 + maxIdle) }

  lemma OneMoreShare(turns: nat, maxIdle: nat)
    ensures Share(turns + 1, maxIdle) == Share(turns, maxIdle) + 1 + maxIdle
  {
  }

  lemma {:induction false} LoadIsShared(threads: seq<Thread>, maxIdle: nat)
    requires forall t :: 0 <= t < |threads| && threads[t].pc.Sweeping? ==> |threads[t].pc.stale| <= maxIdle
    ensures Load(threads) <= Share(Tally(Turns, threads), maxIdle) + Unclosed(threads)
  {
    if threads != [] {
      var n := |threads| - 1;
      LoadIsShared(threads[..n], maxIdle);
      OneMoreShare(Tally(Turns, threads[..n]), maxIdle);
      hide Share;
      assert Carried(threads[n].pc) <= Emptied(threads[n].pc) + if Weigh(Turns, threads[n].pc) == 1 then 1 + maxIdle else 0;
    }
  }

  lemma MoreTurns(turns: nat, cap: nat, maxIdle: nat)
    requires turns <= cap
    ensures Share(turns, maxIdle) <= Share(cap, maxIdle)
  {
    assert (cap - turns) * (1 + maxIdle) >= 0;
  }

  /** In every run, all open sockets, whether idle, in use, swept as stale but not yet closed, or taken by a
      Close, number at most an idle list and, for each turn, one socket and a list's worth of stale ones. */
  lemma OpenSocketsAreBounded(run: seq<Pool>, acts: seq<Action>, cap: nat, maxIdle: nat, i: nat)
    requires Run(run, acts, cap, maxIdle) && i < |run|
    ensures |OpenSockets(run[i])| <= maxIdle + cap * (1 + maxIdle)
  {
    hide Step, Places, DrainOK, OpenSockets;
    RunInv(run, acts, cap, maxIdle, i);
    RunCensus(run, acts, cap, maxIdle, i);
    OpenIsCarried(run[i]);
    LoadIsShared(run[i].threads, maxIdle);
    MoreTurns(Tally(Turns, run[i].threads), cap, maxIdle);
  }
}
