/** Turns, sockets and shutdown over whole runs of the pool. */
module PoolRuns {
  import opened Basics
  import opened PoolSystem
  import opened PoolInvariant
  import opened PoolSteps

  // ---------------------------------------------------------------- places

  /** A Close that is past the closed flag has set it; one that is past the list has taken it. */
  ghost predicate DrainOK(s: Pool) {
    forall t :: 0 <= t < |s.threads| ==> (s.threads[t].pc.Draining? ==> s.closed) && (s.threads[t].pc.Emptying? ==> s.drained)
  }

  lemma PlainMove(s: Pool, a: Action, r: Pool)
    requires Places(s) && Step(s, a, r)
    requires a.Acquire? || a.GiveUp? || a.SkipIdle? || a.SweepDone? || a.DialFails? || a.ShakeDone?
    ensures Places(r)
  {
    hide IdleOK, SockOK, PcOK, WatchOK;
    MoveKeeps(s, a.t, r);
  }

  lemma LateMove(s: Pool, a: Action, r: Pool)
    requires Places(s) && Step(s, a, r) && (a.Free? || a.Fire? || a.Swap? || a.EmptyDone? || (a.Park? && !PcOf(s, a.t).reusable))
    ensures Places(r)
  {
    hide IdleOK, SockOK, PcOK, WatchOK;
    StillReusable(s, a.t);
    MoveKeeps(s, a.t, r);
  }

  lemma StillReusable(s: Pool, t: nat)
    requires Places(s) && On(s, t)
    ensures PcOf(s, t).Releasing? && PcOf(s, t).reusable ==> Undisturbed(s, PcOf(s, t).sock)
  {
    assert PcOK(s, t, s.threads[t].pc);
  }

  lemma SocketMove(s: Pool, a: Action, r: Pool)
    requires Places(s) && DrainOK(s) && Step(s, a, r)
    requires a.TakeIdle? || a.SweepOne? || a.EmptyOne? || a.Spoil? || a.Drop? || a.Dialed? || (a.Park? && PcOf(s, a.t).reusable) || a.Drain?
    ensures Places(r)
  {
    hide Places, Taken, Parked, Drained;
    if a.TakeIdle? { TakenKeeps(s, a.t, a.young); }
    else if a.SweepOne? { CloseKeeps(s, a.t, PcOf(s, a.t).stale[0], PcOf(s, a.t).(stale := PcOf(s, a.t).stale[1..])); }
    else if a.EmptyOne? { CloseKeeps(s, a.t, PcOf(s, a.t).list[0], Emptying(PcOf(s, a.t).list[1..])); }
    else if a.Spoil? || a.Drop? { CloseKeeps(s, a.t, PcOf(s, a.t).sock, Freeing); }
    else if a.Dialed? { DialedKeeps(s, a.t); }
    else if a.Park? { ParkKeeps(s, a.t); }
    else if a.Drain? { DrainedKeeps(s, a.t); }
  }

  lemma WatchMove(s: Pool, a: Action, r: Pool)
    requires Places(s) && Step(s, a, r)
    requires a.Shake? || a.Begin? || a.ShakeEnds? || a.DoEnds? || a.Check? || a.WatchStarts? || a.WatchCloses?
    ensures Places(r)
  {
    hide Places, Unwatched, Read;
    match a
    case Shake(t) => WatchKeeps(s, t, Shaking(PcOf(s, t).sock, Some(|s.watches|)));
    case Begin(t) => WatchKeeps(s, t, Doing(PcOf(s, t).sock, Some(|s.watches|)));
    case ShakeEnds(t, ok, unread) =>
      ReadKeeps(s, PcOf(s, t).sock, unread);
      SameThreads(s, PcOf(s, t).sock, unread);
      UnwatchKeeps(Read(s, PcOf(s, t).sock, unread), t, if ok then Shaking(PcOf(s, t).sock, None) else Spoiled(PcOf(s, t).sock));
    case DoEnds(t, clean, unread) =>
      ReadKeeps(s, PcOf(s, t).sock, unread);
      SameThreads(s, PcOf(s, t).sock, unread);
      UnwatchKeeps(Read(s, PcOf(s, t).sock, unread), t, Checking(PcOf(s, t).sock, clean && unread == 0));
    case Check(t, late) => CheckKeeps(s, t, late);
    case WatchStarts(w) => StartKeeps(s, w);
    case WatchCloses(w) => WatchCloseKeeps(s, w);
  }

  lemma SameThreads(s: Pool, k: nat, unread: nat)
    requires k < |s.socks|
    ensures Read(s, k, unread).threads == s.threads
  {
  }

  lemma StepPlaces(s: Pool, a: Action, r: Pool)
    requires Places(s) && DrainOK(s) && Step(s, a, r)
    ensures Places(r)
  {
    hide Places, Taken, Parked, Drained, Unwatched;
    if a.Command? { SpawnKeeps(s, Thread(Ready, false, false, false)); }
    else if a.CloseClient? { SpawnKeeps(s, Thread(CloseCall, false, false, false)); }
    else if a.Acquire? || a.GiveUp? || a.SkipIdle? || a.SweepDone? || a.DialFails? || a.ShakeDone? { PlainMove(s, a, r); }
    else if a.Free? || a.Fire? || a.Swap? || a.EmptyDone? || (a.Park? && !PcOf(s, a.t).reusable) { LateMove(s, a, r); }
    else if a.Shake? || a.Begin? || a.ShakeEnds? || a.DoEnds? || a.Check? || a.WatchStarts? || a.WatchCloses? { WatchMove(s, a, r); }
    else { SocketMove(s, a, r); }
  }

  // ---------------------------------------------------------------- turns and sockets, counted

  datatype Kind = Turns | Sockets

  /** A thread holds a turn from its wait until it gives it back; it is committed to a socket from the
      moment it has one or has found the list empty until it parks or closes it. */
  function Weigh(kind: Kind, pc: Pc): nat {
    if pc.HasTurn? || pc.Freeing? then (if kind == Turns then 1 else 0)
    else if pc.Ready? || pc.CloseCall? || pc.Draining? || pc.Emptying? || pc.Over? then 0
    else 1
  }

  function Tally(kind: Kind, threads: seq<Thread>): nat {
    if threads == [] then 0 else Tally(kind, threads[..|threads| - 1]) + Weigh(kind, threads[|threads| - 1].pc)
  }

  lemma {:induction false} TallyUpdate(kind: Kind, threads: seq<Thread>, t: nat, th: Thread)
    requires t < |threads|
    ensures Tally(kind, threads[t := th]) == Tally(kind, threads) - Weigh(kind, threads[t].pc) + Weigh(kind, th.pc)
    ensures Tally(kind, threads) >= Weigh(kind, threads[t].pc)
  {
    var n := |threads| - 1;
    var next := threads[t := th];
    if t < n {
      TallyUpdate(kind, threads[..n], t, th);
      assert next[..n] == threads[..n][t := th];
    } else {
      assert next[..n] == threads[..n];
    }
  }

  lemma {:induction false} TallyOrder(threads: seq<Thread>)
    ensures Tally(Sockets, threads) <= Tally(Turns, threads)
  {
    if threads != [] { TallyOrder(threads[..|threads| - 1]); }
  }

  function Actor(a: Action): Option<nat> {
    match a
    case Command => None
    case CloseClient => None
    case WatchStarts(_) => None
    case WatchCloses(_) => None
    case _ => Some(a.t)
  }

  lemma OneThread(s: Pool, a: Action, r: Pool)
    requires Step(s, a, r) && Actor(a).Some?
    ensures a.t < |s.threads| && |r.threads| == |s.threads| && r.threads == s.threads[a.t := r.threads[a.t]]
  {
  }

  /** What the step takes from the semaphore is what its thread now holds. */
  ghost predicate TurnsFollow(s: Pool, t: nat, r: Pool) {
    && t < |s.threads| && t < |r.threads| && r.cap == s.cap && r.overFrees == s.overFrees
    && r.free - s.free == Weigh(Turns, s.threads[t].pc) - Weigh(Turns, r.threads[t].pc)
  }

  predicate Borrows(a: Action) {
    || a.Acquire? || a.GiveUp? || a.TakeIdle? || a.SkipIdle? || a.SweepOne? || a.SweepDone? || a.DialFails? || a.Dialed?
    || a.Shake? || a.ShakeEnds? || a.ShakeDone? || a.Spoil?
  }

  lemma BorrowTurns(s: Pool, a: Action, r: Pool)
    requires Step(s, a, r) && Borrows(a)
    ensures TurnsFollow(s, a.t, r)
  {
    hide Keep;
  }

  lemma ReturnTurns(s: Pool, a: Action, r: Pool)
    requires Step(s, a, r) && Actor(a).Some? && !Borrows(a) && (a.Free? ==> s.free < s.cap)
    ensures TurnsFollow(s, a.t, r)
  {
    hide Keep;
  }

  ghost predicate TurnsOK(s: Pool) { s.free + Tally(Turns, s.threads) == s.cap && s.overFrees == 0 }

  lemma StepTurns(s: Pool, a: Action, r: Pool)
    requires TurnsOK(s) && Step(s, a, r)
    ensures TurnsOK(r) && r.cap == s.cap
  {
    if Actor(a).Some? {
      hide Step;
      OneThread(s, a, r);
      TallyUpdate(Turns, s.threads, a.t, r.threads[a.t]);
      if a.Free? { FreeHolds(s, a, r); }
      if Borrows(a) { BorrowTurns(s, a, r); } else { ReturnTurns(s, a, r); }
    } else if a.Command? || a.CloseClient? {
      assert r.threads[..|s.threads|] == s.threads;
    }
  }

  lemma FreeHolds(s: Pool, a: Action, r: Pool)
    requires Step(s, a, r) && a.Free?
    ensures Weigh(Turns, s.threads[a.t].pc) == 1
  {
  }

  lemma StepDrain(s: Pool, a: Action, r: Pool)
    requires DrainOK(s) && Step(s, a, r)
    ensures DrainOK(r) && (s.closed ==> r.closed) && (s.drained ==> r.drained)
  {
    if Actor(a).Some? {
      hide Step;
      OneThread(s, a, r);
      if Borrows(a) { BorrowFlags(s, a, r); } else { ReturnFlags(s, a, r); }
    }
  }

  /** The shutdown flags only rise, and rise with the Close that is past them. */
  ghost predicate FlagsFollow(s: Pool, t: nat, r: Pool) {
    && t < |s.threads| && t < |r.threads| && (s.closed ==> r.closed) && (s.drained ==> r.drained)
    && (r.threads[t].pc.Draining? ==> r.closed || s.threads[t].pc.Draining?)
    && (r.threads[t].pc.Emptying? ==> r.drained || s.threads[t].pc.Emptying?)
  }

  lemma BorrowFlags(s: Pool, a: Action, r: Pool)
    requires Step(s, a, r) && Borrows(a)
    ensures FlagsFollow(s, a.t, r)
  {
    hide Keep;
  }

  lemma ReturnFlags(s: Pool, a: Action, r: Pool)
    requires Step(s, a, r) && Actor(a).Some? && !Borrows(a)
    ensures FlagsFollow(s, a.t, r)
  {
    hide Keep;
  }

  // ---------------------------------------------------------------- runs

  ghost predicate Inv(s: Pool) { Places(s) && DrainOK(s) && TurnsOK(s) }

  lemma {:induction false} RunInv(run: seq<Pool>, acts: seq<Action>, cap: nat, maxIdle: nat, i: nat)
    requires Run(run, acts, cap, maxIdle) && i < |run|
    ensures Inv(run[i]) && run[i].cap == cap && run[i].maxIdle == maxIdle
  {
    hide Places, DrainOK, TurnsOK, Step;
    if i == 0 {
      PlacesInit(cap, maxIdle);
      Begins(cap, maxIdle);
    } else {
      RunInv(run, acts, cap, maxIdle, i - 1);
      StepPlaces(run[i - 1], acts[i - 1], run[i]);
      StepTurns(run[i - 1], acts[i - 1], run[i]);
      StepDrain(run[i - 1], acts[i - 1], run[i]);
      SameLimits(run[i - 1], acts[i - 1], run[i]);
    }
  }

  lemma Begins(cap: nat, maxIdle: nat)
    ensures DrainOK(Init(cap, maxIdle)) && TurnsOK(Init(cap, maxIdle))
  {
  }

  lemma SameLimits(s: Pool, a: Action, r: Pool)
    requires Step(s, a, r)
    ensures r.maxIdle == s.maxIdle && r.cap == s.cap
  {
  }

  /** Free turns and held turns always make up the pool size, and no turn is ever returned twice. */
  lemma TurnsAreConserved(run: seq<Pool>, acts: seq<Action>, cap: nat, maxIdle: nat, i: nat)
    requires Run(run, acts, cap, maxIdle) && i < |run|
    ensures run[i].free + Tally(Turns, run[i].threads) == cap && run[i].overFrees == 0
  {
    hide Places, DrainOK, Step;
    RunInv(run, acts, cap, maxIdle, i);
  }

  /** Every socket is open on the idle list, once; or in the hands of one thread; or closed. */
  lemma EverySocketHasOnePlace(run: seq<Pool>, acts: seq<Action>, cap: nat, maxIdle: nat, i: nat, k: nat)
    requires Run(run, acts, cap, maxIdle) && i < |run| && k < |run[i].socks|
    ensures var s := run[i];
            match s.socks[k].place
            case IdleList => k in s.idle && s.socks[k].open
            case Owned(t) => k !in s.idle && On(s, t) && Weigh(Turns, PcOf(s, t)) == 1
                             && forall u :: 0 <= u < |s.threads| && u != t ==> Uses(s.threads[u].pc) != Some(k) && k !in Bin(s.threads[u].pc)
            case Trash(t) => k !in s.idle && On(s, t) && k in Bin(PcOf(s, t))
                             && forall u :: 0 <= u < |s.threads| && u != t ==> Uses(s.threads[u].pc) != Some(k) && k !in Bin(s.threads[u].pc)
            case Gone => !s.socks[k].open && k !in s.idle
    ensures Distinct(run[i].idle)
  {
    hide DrainOK, Step;
    RunInv(run, acts, cap, maxIdle, i);
    var s := run[i];
    assert SockOK(s, k);
    InList(s, k);
    forall u | 0 <= u < |s.threads|
      ensures Uses(s.threads[u].pc) == Some(k) ==> s.socks[k].place == Owned(u)
      ensures k in Bin(s.threads[u].pc) ==> s.socks[k].place == Trash(u)
    {
      assert PcOK(s, u, s.threads[u].pc);
    }
  }

  /** A socket that a cancellation watcher has started to close is not on the idle list, in any
      interleaving of the context, the command, its handshake and the release. */
  lemma StartedWatcherNeverIdle(run: seq<Pool>, acts: seq<Action>, cap: nat, maxIdle: nat, i: nat, w: nat)
    requires Run(run, acts, cap, maxIdle) && i < |run| && w < |run[i].watches|
    requires run[i].watches[w].state == Started || run[i].watches[w].state == Ran
    ensures run[i].watches[w].sock !in run[i].idle
  {
    hide DrainOK, TurnsOK, Step;
    RunInv(run, acts, cap, maxIdle, i);
    assert WatchOK(run[i], run[i].watches[w], w);
    InList(run[i], run[i].watches[w].sock);
  }

  /** Once a Close has taken the list, the list stays empty. */
  lemma DrainedStaysEmpty(run: seq<Pool>, acts: seq<Action>, cap: nat, maxIdle: nat, i: nat, j: nat)
    requires Run(run, acts, cap, maxIdle) && i < |acts| && acts[i].Drain? && i < j < |run|
    ensures run[j].idle == [] && run[j].closed
  {
    hide Step;
    DrainedLater(run, acts, cap, maxIdle, i, j);
    RunInv(run, acts, cap, maxIdle, j);
  }

  /** So when the Close that won the closed flag returns, the list is empty for good. A Close that lost
      the flag may return before that, as EarlyReturn shows. */
  lemma CloseLeavesNothingIdle(run: seq<Pool>, acts: seq<Action>, cap: nat, maxIdle: nat, i: nat, j: nat)
    requires Run(run, acts, cap, maxIdle) && i < |acts| && acts[i].EmptyDone? && i <= j < |run|
    ensures run[j].idle == [] && run[j].closed
  {
    RunInv(run, acts, cap, maxIdle, i);
    assert Step(run[i], acts[i], run[i + 1]);
    assert run[i].drained;
    hide Step;
    StaysDrained(run, acts, cap, maxIdle, i, j);
    RunInv(run, acts, cap, maxIdle, j);
  }

  lemma {:induction false} StaysDrained(run: seq<Pool>, acts: seq<Action>, cap: nat, maxIdle: nat, i: nat, j: nat)
    requires Run(run, acts, cap, maxIdle) && i <= j < |run| && run[i].drained
    ensures run[j].drained
  {
    hide Step, Inv;
    if i < j {
      StaysDrained(run, acts, cap, maxIdle, i, j - 1);
      RunInv(run, acts, cap, maxIdle, j - 1);
      assert DrainOK(run[j - 1]) by { DrainPart(run[j - 1]); }
      StepDrain(run[j - 1], acts[j - 1], run[j]);
    }
  }

  lemma DrainPart(s: Pool)
    requires Inv(s)
    ensures DrainOK(s)
  {
  }

  lemma DrainedLater(run: seq<Pool>, acts: seq<Action>, cap: nat, maxIdle: nat, i: nat, j: nat)
    requires Run(run, acts, cap, maxIdle) && i < |acts| && acts[i].Drain? && i < j < |run|
    ensures run[j].drained
  {
    assert Step(run[i], acts[i], run[i + 1]);
    assert run[i + 1].drained;
    StaysDrained(run, acts, cap, maxIdle, i + 1, j);
  }

  // ---------------------------------------------------------------- how many sockets

  ghost predicate NoSkips(s: Pool) { forall t :: 0 <= t < |s.threads| ==> !s.threads[t].skipIdle }

  ghost predicate Crowd(s: Pool) { |s.idle| + Tally(Sockets, s.threads) <= s.cap }

  lemma StepNoSkips(s: Pool, a: Action, r: Pool)
    requires NoSkips(s) && Step(s, a, r) && !(a.Free? && a.skip)
    ensures NoSkips(r)
  {
    if Actor(a).Some? {
      hide Step;
      OneThread(s, a, r);
      if Borrows(a) { BorrowSkips(s, a, r); } else { ReturnSkips(s, a, r); }
    }
  }

  lemma BorrowSkips(s: Pool, a: Action, r: Pool)
    requires Step(s, a, r) && Borrows(a)
    ensures a.t < |r.threads| && r.threads[a.t].skipIdle == s.threads[a.t].skipIdle
  {
    hide Keep;
  }

  lemma ReturnSkips(s: Pool, a: Action, r: Pool)
    requires Step(s, a, r) && Actor(a).Some? && !Borrows(a) && !(a.Free? && a.skip)
    ensures a.t < |r.threads| && r.threads[a.t].skipIdle == s.threads[a.t].skipIdle
  {
    hide Keep;
  }

  /** A step that does not look at the list moves a socket between list and thread or lets one go. */
  lemma SocketsMove(s: Pool, a: Action, r: Pool)
    requires Step(s, a, r) && Actor(a).Some? && !a.TakeIdle? && !a.SkipIdle? && !a.Drain?
    ensures a.t < |s.threads| && a.t < |r.threads|
    ensures |r.idle| + Weigh(Sockets, r.threads[a.t].pc) <= |s.idle| + Weigh(Sockets, s.threads[a.t].pc)
  {
  }

  /** A take either moves a socket from the list to the thread, or finds that the list has none and
      leaves it empty. */
  lemma TakeMoves(s: Pool, t: nat, young: set<nat>)
    requires IdleOK(s) && On(s, t) && PcOf(s, t).HasTurn?
    ensures var r := Taken(s, t, young);
            || |r.idle| + Weigh(Sockets, PcOf(r, t)) <= |s.idle|
            || (r.idle == [] && Weigh(Sockets, PcOf(r, t)) == 1)
  {
    hide IdleOK, Keep;
    if !s.closed { TakenList(s, young); TakenShape(s, t, young); }
  }

  lemma StepCrowd(s: Pool, a: Action, r: Pool)
    requires Crowd(s) && NoSkips(s) && Inv(s) && Step(s, a, r)
    ensures Crowd(r)
  {
    hide DrainOK, IdleOK, SockOK, PcOK, WatchOK;
    if Actor(a).Some? {
      OneThread(s, a, r);
      TallyUpdate(Sockets, s.threads, a.t, r.threads[a.t]);
      TallyUpdate(Turns, s.threads, a.t, r.threads[a.t]);
      TallyOrder(r.threads);
      if a.TakeIdle? { hide Taken; TakeMoves(s, a.t, a.young); StepTurns(s, a, r); }
      else if !a.Drain? { hide Step; SocketsMove(s, a, r); NotSkipping(s, a, r); }
    } else if a.Command? || a.CloseClient? {
      assert r.threads[..|s.threads|] == s.threads;
    }
  }

  lemma NotSkipping(s: Pool, a: Action, r: Pool)
    requires NoSkips(s) && Step(s, a, r)
    ensures !a.SkipIdle?
  {
  }

  /** While no command skips the idle list, idle and committed sockets together stay within the pool
      size; with skipping they stay within the pool size plus the idle cap. */
  lemma {:induction false} SocketsAreBounded(run: seq<Pool>, acts: seq<Action>, cap: nat, maxIdle: nat, i: nat)
    requires Run(run, acts, cap, maxIdle) && i < |run|
    ensures |run[i].idle| + Tally(Sockets, run[i].threads) <= cap + maxIdle
    ensures (forall j :: 0 <= j < i ==> !(acts[j].Free? && acts[j].skip)) ==> |run[i].idle| + Tally(Sockets, run[i].threads) <= cap
  {
    hide Step, SockOK, PcOK, WatchOK;
    RunInv(run, acts, cap, maxIdle, i);
    TallyOrder(run[i].threads);
    if forall j :: 0 <= j < i ==> !(acts[j].Free? && acts[j].skip) { CrowdSoFar(run, acts, cap, maxIdle, i); }
  }

  lemma {:induction false} CrowdSoFar(run: seq<Pool>, acts: seq<Action>, cap: nat, maxIdle: nat, i: nat)
    requires Run(run, acts, cap, maxIdle) && i < |run| && forall j :: 0 <= j < i ==> !(acts[j].Free? && acts[j].skip)
    ensures Crowd(run[i]) && NoSkips(run[i])
  {
    hide Step, Inv;
    if i > 0 {
      CrowdSoFar(run, acts, cap, maxIdle, i - 1);
      RunInv(run, acts, cap, maxIdle, i - 1);
      StepCrowd(run[i - 1], acts[i - 1], run[i]);
      StepNoSkips(run[i - 1], acts[i - 1], run[i]);
    }
  }
}
