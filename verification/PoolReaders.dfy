/** What the reader of a pooled socket holds: a socket is reused only when no byte of an earlier reply is
    left in it. */
module PoolReaders {
  import opened Basics
  import opened PoolSystem
  import opened PoolInvariant
  import opened PoolSteps
  import opened PoolRuns

  ghost predicate Empty(s: Pool, k: nat) { k < |s.socks| && s.socks[k].unread == 0 }

  /** What the thread knows of its socket's reader. */
  ghost predicate ReaderOK(s: Pool, th: Thread) {
    match th.pc
    case Sweeping(_, got) => th.fromIdle == got.Some? && (got.Some? ==> Empty(s, got.value))
    case Dialing => !th.fromIdle
    case Shaking(_, _) => !th.fromIdle
    case Holding(k) => th.fromIdle ==> Empty(s, k)
    case Doing(k, _) => th.fromIdle ==> Empty(s, k)
    case Checking(k, reusable) => reusable ==> Empty(s, k)
    case Releasing(k, reusable) => reusable ==> Empty(s, k)
    case _ => true
  }

  ghost predicate ReadersOK(s: Pool) {
    && (forall i :: 0 <= i < |s.idle| ==> Empty(s, s.idle[i]))
    && (forall t :: 0 <= t < |s.threads| ==> ReaderOK(s, s.threads[t]))
  }

  /** Only a do changes what a reader holds, and only that of the socket its thread uses. */
  lemma OnlyOwnReader(s: Pool, a: Action, r: Pool, k: nat)
    requires Step(s, a, r) && Empty(s, k)
    requires a.DoEnds? || a.ShakeEnds? ==> On(s, a.t) ==> Uses(PcOf(s, a.t)) != Some(k)
    ensures Empty(r, k)
  {
  }

  // ---------------------------------------------------------------- the idle list

  lemma JoinsIdle(s: Pool, a: Action, r: Pool, x: nat)
    requires Step(s, a, r) && x in r.idle
    ensures x in s.idle || (a.Park? && On(s, a.t) && PcOf(s, a.t) == Releasing(x, true))
  {
    if a.TakeIdle? {
      KeepMembers(s.idle, a.young, true, x);
      var survivors := Keep(s.idle, a.young, true);
      assert r.idle == s.idle || r.idle <= survivors;
    }
  }

  lemma IdleReader(s: Pool, a: Action, r: Pool, x: nat)
    requires Places(s) && ReadersOK(s) && Step(s, a, r) && x in r.idle
    ensures Empty(r, x)
  {
    JoinsIdle(s, a, r, x);
    hide Step;
    if x in s.idle {
      IdleIsNotUsed(s, a, x);
      var i :| 0 <= i < |s.idle| && s.idle[i] == x;
      assert Empty(s, s.idle[i]);
    } else {
      assert ReaderOK(s, s.threads[a.t]);
    }
    OnlyOwnReader(s, a, r, x);
  }

  lemma IdleIsNotUsed(s: Pool, a: Action, x: nat)
    requires Places(s) && x in s.idle
    ensures a.DoEnds? || a.ShakeEnds? ==> On(s, a.t) ==> Uses(PcOf(s, a.t)) != Some(x)
  {
    if (a.DoEnds? || a.ShakeEnds?) && On(s, a.t) { assert PcOK(s, a.t, s.threads[a.t].pc); }
  }

  // ---------------------------------------------------------------- threads

  /** A thread that does not move keeps its reader. */
  lemma OtherReader(s: Pool, a: Action, r: Pool, u: nat)
    requires Places(s) && Step(s, a, r) && u < |s.threads| && Actor(a) != Some(u) && ReaderOK(s, s.threads[u])
    ensures ReaderOK(r, s.threads[u])
  {
    hide Step;
    var use := Uses(s.threads[u].pc);
    if use.Some? && Empty(s, use.value) {
      NotTwo(s, a, u, use.value);
      OnlyOwnReader(s, a, r, use.value);
    }
  }

  lemma NotTwo(s: Pool, a: Action, u: nat, k: nat)
    requires Places(s) && u < |s.threads| && Actor(a) != Some(u) && Uses(s.threads[u].pc) == Some(k)
    ensures a.DoEnds? || a.ShakeEnds? ==> On(s, a.t) ==> Uses(PcOf(s, a.t)) != Some(k)
  {
    assert PcOK(s, u, s.threads[u].pc);
    if (a.DoEnds? || a.ShakeEnds?) && On(s, a.t) { assert PcOK(s, a.t, s.threads[a.t].pc); }
  }

  predicate UsesReader(a: Action) { a.SweepOne? || a.SweepDone? || a.Dialed? || a.ShakeEnds? || a.Shake? || a.ShakeDone? || a.Begin? }

  predicate Judges(a: Action) { a.DoEnds? || a.Check? || a.Fire? }

  /** The thread that moves keeps what it knows up to its do. */
  lemma BorrowReader(s: Pool, a: Action, r: Pool)
    requires ReadersOK(s) && Step(s, a, r) && UsesReader(a) && On(s, a.t)
    ensures a.t < |r.threads| && ReaderOK(r, r.threads[a.t])
  {
    assert ReaderOK(s, s.threads[a.t]);
  }

  /** From its do on, a socket that is to be reused was found empty. */
  lemma JudgedReader(s: Pool, a: Action, r: Pool)
    requires ReadersOK(s) && Step(s, a, r) && Judges(a) && On(s, a.t)
    ensures a.t < |r.threads| && ReaderOK(r, r.threads[a.t])
  {
    assert ReaderOK(s, s.threads[a.t]);
  }

  /** The other moves lead to where nothing need be known. */
  lemma OwnReader(s: Pool, a: Action, r: Pool)
    requires Step(s, a, r) && Actor(a).Some? && On(s, a.t) && !a.TakeIdle? && !UsesReader(a) && !Judges(a)
    ensures a.t < |r.threads| && ReaderOK(r, r.threads[a.t])
  {
    hide Empty;
  }

  lemma TakenReader(s: Pool, a: Action, r: Pool)
    requires ReadersOK(s) && Step(s, a, r) && a.TakeIdle?
    ensures a.t < |r.threads| && ReaderOK(r, r.threads[a.t])
  {
    var got := Newest(Keep(s.idle, a.young, true));
    if !s.closed && got.Some? {
      KeepMembers(s.idle, a.young, true, got.value);
      var i :| 0 <= i < |s.idle| && s.idle[i] == got.value;
      assert Empty(s, s.idle[i]);
    }
  }

  lemma StepThreads(s: Pool, a: Action, r: Pool, u: nat)
    requires Step(s, a, r) && u < |r.threads| && Actor(a) != Some(u)
    ensures if u < |s.threads| then r.threads[u] == s.threads[u] else r.threads[u].pc.Ready? || r.threads[u].pc.CloseCall?
  {
    if Actor(a).Some? { OneThread(s, a, r); }
  }

  lemma ReadersStep(s: Pool, a: Action, r: Pool)
    requires Places(s) && ReadersOK(s) && Step(s, a, r)
    ensures ReadersOK(r)
  {
    if Actor(a).Some? { OneThread(s, a, r); }
    hide Step, Places;
    forall i | 0 <= i < |r.idle| ensures Empty(r, r.idle[i]) { IdleReader(s, a, r, r.idle[i]); }
    forall u | 0 <= u < |r.threads| ensures ReaderOK(r, r.threads[u]) {
      if Actor(a) == Some(u) {
        if a.TakeIdle? { TakenReader(s, a, r); } else if UsesReader(a) { BorrowReader(s, a, r); }
        else if Judges(a) { JudgedReader(s, a, r); } else { OwnReader(s, a, r); }
      } else {
        StepThreads(s, a, r, u);
        if u < |s.threads| { OtherReader(s, a, r, u); }
      }
    }
  }

  // ---------------------------------------------------------------- runs

  lemma {:induction false} RunReaders(run: seq<Pool>, acts: seq<Action>, cap: nat, maxIdle: nat, i: nat)
    requires Run(run, acts, cap, maxIdle) && i < |run|
    ensures ReadersOK(run[i])
  {
    hide Step, Places, DrainOK, TurnsOK;
    if i > 0 {
      RunReaders(run, acts, cap, maxIdle, i - 1);
      RunInv(run, acts, cap, maxIdle, i - 1);
      ReadersStep(run[i - 1], acts[i - 1], run[i]);
    }
  }

  /** In every reachable state a socket on the idle list has nothing unread in its reader; and a do finds
      leftover only on a socket its own command has dialed, never on one from the list. */
  lemma PooledReadersAreEmpty(run: seq<Pool>, acts: seq<Action>, cap: nat, maxIdle: nat, i: nat)
    requires Run(run, acts, cap, maxIdle) && i < |run|
    ensures forall k :: k in run[i].idle ==> k < |run[i].socks| && run[i].socks[k].unread == 0
    ensures forall t :: 0 <= t < |run[i].threads| && run[i].threads[t].pc.Doing? && run[i].threads[t].fromIdle ==>
                          run[i].threads[t].pc.sock < |run[i].socks| && run[i].socks[run[i].threads[t].pc.sock].unread == 0
  {
    RunReaders(run, acts, cap, maxIdle, i);
    var s := run[i];
    forall k | k in s.idle ensures Empty(s, k) { var j :| 0 <= j < |s.idle| && s.idle[j] == k; assert Empty(s, s.idle[j]); }
    forall t | 0 <= t < |s.threads| && s.threads[t].pc.Doing? && s.threads[t].fromIdle ensures Empty(s, s.threads[t].pc.sock) {
      assert ReaderOK(s, s.threads[t]);
    }
  }
}
