/** A Close that loses the closed flag can return before the idle list is empty. */
module PoolEarly {
  import opened Basics
  import opened PoolSystem

  const P1 := Thread(Over, false, false, false)

  /** One command has run and parked its socket. */
  const E0 := Pool(1, 1, 1, 0, false, false, [0], [Sock(true, IdleList, 0)], [Watch(0, 0, Stopped)], [P1])

  function Mid(free: nat, socks: seq<Sock>, watches: seq<Watch>, pc: Pc): Pool {
    Pool(1, 1, free, 0, false, false, [], socks, watches, [Thread(pc, false, false, false)])
  }

  const OWN := [Sock(true, Owned(0), 0)]
  const REG := [Watch(0, 0, Registered)]
  const STP := [Watch(0, 0, Stopped)]

  const B1 := Mid(1, [], [], Ready)
  const B2 := Mid(0, [], [], HasTurn)
  const B3 := Mid(0, [], [], Sweeping([], None))
  const B4 := Mid(0, [], [], Dialing)
  const B5 := Mid(0, OWN, [], Shaking(0, None))
  const B6 := Mid(0, OWN, [], Holding(0))
  const B7 := Mid(0, OWN, REG, Doing(0, Some(0)))
  const B8 := Mid(0, OWN, STP, Checking(0, true))
  const B9 := Mid(0, OWN, STP, Releasing(0, true))
  const B10 := E0.(free := 0, threads := [P1.(pc := Freeing)])
  const CC := P1.(pc := CloseCall)
  const C1 := E0.(threads := [P1, CC])
  const C2 := E0.(threads := [P1, CC, CC])
  const C3 := E0.(closed := true, threads := [P1, P1.(pc := Draining), CC])
  const C4 := E0.(closed := true, threads := [P1, P1.(pc := Draining), P1])

  lemma Borrows()
    ensures Step(Init(1, 1), Command, B1) && Step(B1, Acquire(0), B2)
  {
  }

  lemma FindsNone()
    ensures Step(B2, TakeIdle(0, {}), B3)
  {
    assert Keep<nat>([], {}, true) == [] && Keep<nat>([], {}, false) == [];
    assert Taken(B2, 0, {}).socks == [];
  }

  lemma Dials()
    ensures Step(B3, SweepDone(0), B4) && Step(B4, Dialed(0), B5) && Step(B5, ShakeDone(0), B6)
  {
  }

  lemma Runs()
    ensures Step(B6, Begin(0), B7) && Step(B7, DoEnds(0, true, 0), B8)
  {
  }

  lemma Checks()
    ensures Step(B8, Check(0, false), B9)
  {
  }

  lemma Returns()
    ensures Step(B9, Park(0), B10) && Step(B10, Free(0, false, false), E0)
  {
  }

  lemma Closes()
    ensures Step(E0, CloseClient, C1) && Step(C1, CloseClient, C2) && Step(C2, Swap(1), C3) && Step(C3, Swap(2), C4)
  {
  }

  ghost predicate Steps(run: seq<Pool>, acts: seq<Action>) {
    |run| == |acts| + 1 && forall i :: 0 <= i < |acts| ==> Step(run[i], acts[i], run[i + 1])
  }

  lemma Joined(run: seq<Pool>, acts: seq<Action>, more: seq<Pool>, next: seq<Action>)
    requires Steps(run, acts) && Steps(more, next) && run[|acts|] == more[0]
    ensures Steps(run + more[1..], acts + next) && (run + more[1..])[|acts| + |next|] == more[|next|]
  {
    hide Step;
    var all, a := run + more[1..], acts + next;
    forall i | 0 <= i < |a| ensures Step(all[i], a[i], all[i + 1]) {
      if i >= |acts| {
        var j := i - |acts|;
        assert all[i] == more[j] && all[i + 1] == more[j + 1] && a[i] == next[j];
      }
    }
  }

  lemma Parks()
    ensures exists run, acts :: Steps(run, acts) && run[0] == Init(1, 1) && run[|acts|] == E0
  {
    hide Step;
    Borrows();
    FindsNone();
    Dials();
    Runs();
    Checks();
    Returns();
    var run := [Init(1, 1), B1, B2, B3, B4, B5];
    var acts := [Command, Acquire(0), TakeIdle(0, {}), SweepDone(0), Dialed(0)];
    var more := [B5, B6, B7, B8, B9, B10, E0];
    var next := [ShakeDone(0), Begin(0), DoEnds(0, true, 0), Check(0, false), Park(0), Free(0, false, false)];
    assert Steps(run, acts) && Steps(more, next);
    Joined(run, acts, more, next);
  }

  /** Two Close calls: the second finds the flag set and returns while the first has not yet emptied
      the idle list. */
  lemma EarlyReturn()
    ensures exists run: seq<Pool>, acts: seq<Action> :: Run(run, acts, 1, 1) && run[|acts|] == C4
    ensures Step(C3, Swap(2), C4) && C4.threads[2].pc == Over && C4.idle == [0]
  {
    hide Step;
    Parks();
    Closes();
    var run, acts :| Steps(run, acts) && run[0] == Init(1, 1) && run[|acts|] == E0;
    var more, next := [E0, C1, C2, C3, C4], [CloseClient, CloseClient, Swap(1), Swap(2)];
    assert Steps(more, next);
    Joined(run, acts, more, next);
    assert Run(run + more[1..], acts + next, 1, 1);
  }
}
