/** Runs that show what the promises need and what can happen. With Reset, or without the stored flag, a
    create can start while the old value is not closed; and a drop can find its slot busy. */
module ReclaimExamples {
  import opened Basics
  import opened AliasLinks
  import opened ReclaimCore
  import opened ReclaimSystem
  import opened ReclaimRuns
  import opened ReclaimSafety

  const K: Key := "k"
  const V := Plain(1)

  function CoreWith(items: map<Key, nat>, slot: Slot, closed: seq<bool>): Core { Core(0, items, [slot], closed, false, NoLinks) }

  const FRESH := Slot(Nil, false, None, Busy, 0, 0, None, true)

  const S1 := System(EmptyCore(0), [Looking(K)], [], [], false)
  const S2 := System(CoreWith(map[K := 0], FRESH, [false]), [Creating(K, 0, 0)], [Note(K, Some(0), {}, 0, false, [])], [0], false)

  function Put(enforce: bool): System {
    System(CoreWith(map[K := 0], FRESH.(value := V, enforce := enforce, state := Awake, holders := 1), [true]),
           [Holding(K, 0, V)], [Note(K, None, {0}, 0, true, [])], [0], false)
  }

  // Each step is stated as an equation, which keeps the whole step relation folded.

  lemma Looks()
    ensures Step(Init(0), Spawn(K), S1) == true && Step(S1, Lookup(0), S2) == true
  {
    var r := LookupStep(S1, 0);
    assert r.core.slots == S2.core.slots && r.core.closed == S2.core.closed && r.core.items == S2.core.items;
    assert r.notes == S2.notes && r.closer == S2.closer && r.pcs == S2.pcs;
  }

  lemma Opens(enforce: bool)
    ensures Step(S2, CreateOk(0, V, enforce), Put(enforce)) == true
  {
    var r := CreateOkStep(S2, 0, V, enforce);
    assert r.core.slots == Put(enforce).core.slots && r.core.closed == [true] && r.core.items == map[K := 0];
    assert S2.notes[0].holders + {0} == {0};
    assert r.notes == Put(enforce).notes && r.pcs == Put(enforce).pcs;
  }

  // ---------------------------------------------------------------- Reset

  const T4 := Put(true).(core := Put(true).core.(items := map[], links := Links(map[], [], map[0 := []])),
                         pcs := [Holding(K, 0, V), Resetting({0})], resetUsed := true)
  const T5 := T4.(pcs := T4.pcs + [Looking(K)])
  const T6 := LookupStep(T5, 2)

  lemma Resets()
    ensures Step(Put(true), ResetStart([0]), T4) == true
  {
    var s := Put(true);
    var r := ResetStartStep(s, [0]);
    assert s.core.items.Values == {0} by { assert s.core.items[K] == 0; }
    assert [0][..0] == [];
    assert UnbindAll(NoLinks, [0]) == Unbind(NoLinks, 0);
    assert r.core.links == T4.core.links;
    assert r.core.slots == T4.core.slots;
    assert r.pcs == T4.pcs && r.notes == T4.notes;
    assert forall i :: i in [0] <==> i in s.core.items.Values;
  }

  lemma OpensAgain()
    ensures Step(T4, Spawn(K), T5) == true && Step(T5, Lookup(2), T6) == true && StartsCreate(T5, Lookup(2), T6, K)
  {
  }

  /** After Reset has swapped the value out, a create for its key starts before its Close. */
  lemma ResetBreaksCloseBeforeOpen()
    ensures exists run, acts :: Run(run, acts) && |acts| == 6 && run[3] == Put(true) && run[5] == T5 && run[6] == T6 && acts[5] == Lookup(2)
    ensures Put(true).notes[0].put && Put(true).core.slots[0].enforce && Put(true).notes[0].key == K
    ensures StartsCreate(T5, Lookup(2), T6, K) && !HasClosed(T5.notes[0])
  {
    hide Step;
    Looks();
    Opens(true);
    Resets();
    OpensAgain();
    var run := [Init(0), S1, S2, Put(true), T4, T5, T6];
    var acts := [Spawn(K), Lookup(0), CreateOk(0, V, true), ResetStart([0]), Spawn(K), Lookup(2)];
    assert Run(run, acts);
  }

  // ---------------------------------------------------------------- no stored flag

  const U4 := Put(false).(core := ReleaseHolder(Put(false).core, 0), pcs := [Dropping(K, 0)], notes := [Note(K, None, {}, 0, true, [])])
  const U5 := System(CoreWith(map[K := 0], U4.core.slots[0].(state := Busy, ready := 1), [true, false]),
                     [Sleeping(K, 0, 1, false)], [Note(K, Some(0), {}, 0, true, [SleepBegin])], [0, 0], false)
  const U6 := System(CoreWith(map[], U5.core.slots[0].(state := Asleep), [true, true]),
                     [Expiring(K, 0)], [Note(K, None, {}, 0, true, [SleepBegin, SleepEnd])], [0, 0], false)
  const U7 := U6.(pcs := U6.pcs + [Looking(K)])
  const U8 := LookupStep(U7, 1)

  lemma Drops()
    ensures Step(Put(false), Release(0), U4) == true && Step(U4, Claim(0), U5) == true
  {
    var r := ReleaseStep(Put(false), 0);
    assert Put(false).notes[0].holders - {0} == {};
    assert r.notes == U4.notes && r.pcs == U4.pcs;
    var q := ClaimStep(U4, 0);
    assert q.core.slots == U5.core.slots && q.core.closed == U5.core.closed && q.core.items == U5.core.items;
    assert U4.notes[0].trace + [SleepBegin] == [SleepBegin];
    assert q.notes == U5.notes && q.pcs == U5.pcs && q.closer == U5.closer;
  }

  lemma Sleeps()
    ensures Step(U5, SleepOk(0), U6) == true
  {
    var r := SleepOkStep(U5, 0);
    assert map[K := 0] - {K} == map[];
    assert r.core.slots == U6.core.slots && r.core.closed == U6.core.closed && r.core.items == U6.core.items;
    assert U5.notes[0].trace + [SleepEnd] == [SleepBegin, SleepEnd];
    assert r.notes == U6.notes && r.pcs == U6.pcs;
  }

  lemma OpensBeforeClose()
    ensures Step(U6, Spawn(K), U7) == true && Step(U7, Lookup(1), U8) == true && StartsCreate(U7, Lookup(1), U8, K)
  {
  }

  /** Without the stored flag and with no grace, a create starts between Sleep and Close. */
  lemma UnenforcedOverlaps()
    ensures exists run, acts :: Run(run, acts) && !UsesReset(acts) && |acts| == 8 && run[3] == Put(false) && run[7] == U7 && run[8] == U8 && acts[7] == Lookup(1)
    ensures Put(false).notes[0].put && Put(false).notes[0].key == K && StartsCreate(U7, Lookup(1), U8, K) && !HasClosed(U7.notes[0])
  {
    hide Step;
    Looks();
    Opens(false);
    Drops();
    Sleeps();
    OpensBeforeClose();
    var run := [Init(0), S1, S2, Put(false), U4, U5, U6, U7, U8];
    var acts := [Spawn(K), Lookup(0), CreateOk(0, V, false), Release(0), Claim(0), SleepOk(0), Spawn(K), Lookup(1)];
    assert Run(run, acts);
  }

  // ---------------------------------------------------------------- a drop that parks

  const SHARED := Put(false).core.slots[0].(holders := 2)
  const P4 := Put(false).(pcs := Put(false).pcs + [Looking(K)])
  const P5 := System(CoreWith(map[K := 0], SHARED, [true]), [Holding(K, 0, V), Holding(K, 0, V)], [Note(K, None, {0, 1}, 0, true, [])], [0], false)
  const P6 := System(CoreWith(map[K := 0], SHARED.(holders := 1), [true]), [Dropping(K, 0), Holding(K, 0, V)], [Note(K, None, {1}, 0, true, [])], [0], false)
  const P7 := System(CoreWith(map[K := 0], SHARED.(holders := 0), [true]), [Dropping(K, 0), Dropping(K, 0)], [Note(K, None, {}, 1, true, [])], [0], false)
  const P8 := System(CoreWith(map[K := 0], SHARED.(holders := 0, state := Busy, ready := 1), [true, false]),
                     [Sleeping(K, 0, 1, false), Dropping(K, 0)], [Note(K, Some(0), {}, 1, true, [SleepBegin])], [0, 0], false)
  const P9 := P8.(pcs := [Sleeping(K, 0, 1, false), DropParked(K, 0, 1)])

  lemma Shares()
    ensures Step(Put(false), Spawn(K), P4) == true && Step(P4, Lookup(1), P5) == true
  {
    var r := LookupStep(P4, 1);
    assert P4.notes[0].holders + {1} == {0, 1};
    assert r.core.slots == P5.core.slots && r.notes == P5.notes && r.pcs == P5.pcs;
  }

  lemma BothRelease()
    ensures Step(P5, Release(0), P6) == true && Step(P6, Release(1), P7) == true
  {
    var r, q := ReleaseStep(P5, 0), ReleaseStep(P6, 1);
    assert P5.notes[0].holders - {0} == {1} && P6.notes[0].holders - {1} == {};
    assert r.core.slots == P6.core.slots && r.notes == P6.notes && r.pcs == P6.pcs;
    assert q.core.slots == P7.core.slots && q.notes == P7.notes && q.pcs == P7.pcs;
  }

  lemma OneClaims()
    ensures Step(P7, Claim(0), P8) == true && Step(P8, Claim(1), P9) == true
  {
    var r, q := ClaimStep(P7, 0), ClaimStep(P8, 1);
    assert P7.notes[0].trace + [SleepBegin] == [SleepBegin];
    assert r.core.slots == P8.core.slots && r.core.closed == P8.core.closed && r.notes == P8.notes && r.pcs == P8.pcs && r.closer == P8.closer;
    assert q.pcs == P9.pcs;
  }

  /** Two holders release before either claims: the second claim finds the first one's Sleep in flight
      and takes the park branch. */
  lemma DropCanPark()
    ensures exists run, acts :: Run(run, acts) && !UsesReset(acts) && run[|acts|] == P9
    ensures P9.pcs[1].DropParked? && P9.pcs[0].Sleeping?
  {
    hide Step;
    Looks();
    Opens(false);
    Shares();
    BothRelease();
    OneClaims();
    var run := [Init(0), S1, S2, Put(false), P4, P5, P6, P7, P8, P9];
    var acts := [Spawn(K), Lookup(0), CreateOk(0, V, false), Spawn(K), Lookup(1), Release(0), Release(1), Claim(0), Claim(1)];
    assert Run(run, acts);
  }

  // ---------------------------------------------------------------- a grace cut short

  function GraceCore(items: map<Key, nat>, slot: Slot, closed: seq<bool>): Core { Core(10, items, [slot], closed, false, NoLinks) }

  const MAPPED: map<Key, nat> := map[K := 0]
  const HELD := FRESH.(value := V, state := Awake, holders := 1)

  const Q1 := System(EmptyCore(10), [Looking(K)], [], [], false)
  const Q2 := System(GraceCore(MAPPED, FRESH, [false]), [Creating(K, 0, 0)], [Note(K, Some(0), {}, 0, false, [])], [0], false)
  const Q3 := System(GraceCore(MAPPED, HELD, [true]), [Holding(K, 0, V)], [Note(K, None, {0}, 0, true, [])], [0], false)
  const Q4 := System(GraceCore(MAPPED, HELD.(holders := 0), [true]), [Dropping(K, 0)], [Note(K, None, {}, 0, true, [])], [0], false)
  const Q5 := System(GraceCore(MAPPED, HELD.(holders := 0, state := Busy, ready := 1), [true, false]),
                     [Sleeping(K, 0, 1, false)], [Note(K, Some(0), {}, 0, true, [SleepBegin])], [0, 0], false)
  const Q6 := System(GraceCore(MAPPED, HELD.(holders := 0, state := Asleep, ready := 1, timer := Some(1)), [true, true]),
                     [Done, Armed(K, 0)], [Note(K, None, {}, 1, true, [SleepBegin, SleepEnd])], [0, 0], false)
  const Q7 := Q6.(pcs := [Done, Expiring(K, 0), Looking(K)])
  const Q8 := LookupStep(Q7, 2)
  const Q9 := WakeOkStep(Q8, 2)
  const Q10 := ReleaseStep(Q9, 2)
  const Q11 := ClaimStep(Q10, 2)
  const Q12 := SleepOkStep(Q11, 2)
  const Q13 := ExpiryStep(Q12, 1)

  lemma GraceOpens()
    ensures Step(Init(10), Spawn(K), Q1) == true && Step(Q1, Lookup(0), Q2) == true && Step(Q2, CreateOk(0, V, false), Q3) == true
  {
    var r := LookupStep(Q1, 0);
    assert r.core.slots == Q2.core.slots && r.core.closed == Q2.core.closed && r.core.items == Q2.core.items;
    assert r.notes == Q2.notes && r.closer == Q2.closer && r.pcs == Q2.pcs;
    var q := CreateOkStep(Q2, 0, V, false);
    assert q.core.slots == Q3.core.slots && q.core.closed == [true] && q.core.items == MAPPED;
    assert Q2.notes[0].holders + {0} == {0};
    assert q.notes == Q3.notes && q.pcs == Q3.pcs;
  }

  lemma GraceDrops()
    ensures Step(Q3, Release(0), Q4) == true && Step(Q4, Claim(0), Q5) == true
  {
    var r, q := ReleaseStep(Q3, 0), ClaimStep(Q4, 0);
    assert Q3.notes[0].holders - {0} == {};
    assert r.core.slots == Q4.core.slots && r.notes == Q4.notes && r.pcs == Q4.pcs;
    assert q.core.slots == Q5.core.slots && q.core.closed == Q5.core.closed && q.core.items == Q5.core.items;
    assert Q4.notes[0].trace + [SleepBegin] == [SleepBegin];
    assert q.notes == Q5.notes && q.pcs == Q5.pcs && q.closer == Q5.closer;
  }

  lemma GraceArms()
    ensures Step(Q5, SleepOk(0), Q6) == true && Step(Q6, Fire(1), Q6.(pcs := [Done, Expiring(K, 0)])) == true
    ensures Step(Q6.(pcs := [Done, Expiring(K, 0)]), Spawn(K), Q7) == true
  {
    var r := SleepOkStep(Q5, 0);
    assert r.core.slots == Q6.core.slots && r.core.closed == Q6.core.closed && r.core.items == Q6.core.items;
    assert Q5.notes[0].trace + [SleepEnd] == [SleepBegin, SleepEnd];
    assert r.notes == Q6.notes && r.pcs == Q6.pcs;
    assert FireStep(Q6, 1).pcs == [Done, Expiring(K, 0)];
  }

  lemma SecondSleep()
    ensures Q8.pcs == [Done, Expiring(K, 0), Waking(K, 0, 2, V, false)] && Q8.core.slots[0] == HELD.(state := Busy, ready := 2)
    ensures Q9.pcs == [Done, Expiring(K, 0), Holding(K, 0, V)] && Q9.core.slots[0] == HELD.(ready := 2)
    ensures Q10.pcs == [Done, Expiring(K, 0), Dropping(K, 0)] && Q10.core.slots[0] == HELD.(ready := 2, holders := 0)
    ensures Q11.pcs == [Done, Expiring(K, 0), Sleeping(K, 0, 3, false)]
    ensures Q12.pcs == [Done, Expiring(K, 0), Done, Armed(K, 0)] && Q12.core.slots[0].state == Asleep && Q12.core.slots[0].holders == 0
  {
  }

  lemma InRange()
    ensures SlotIn(Q8, 0) && SlotIn(Q9, 0) && SlotIn(Q10, 0)
  {
    SecondSleep();
  }

  lemma WakesAgain()
    ensures Step(Q7, Lookup(2), Q8) == true && Step(Q8, WakeOk(2), Q9) == true
  {
    SecondSleep();
    InRange();
    hide LookupStep, WakeOkStep;
  }

  lemma DropsAgain()
    ensures Step(Q9, Release(2), Q10) == true && Step(Q10, Claim(2), Q11) == true
  {
    SecondSleep();
    InRange();
    hide LookupStep, WakeOkStep, ReleaseStep, ClaimStep;
  }

  lemma SleepsAgain()
    ensures Step(Q11, SleepOk(2), Q12) == true
    ensures SlotIn(Q12, 0) && Q12.core.slots[0].enforce == false && Q12.core.items == MAPPED && |Q12.core.slots| == 1
  {
    SecondSleep();
  }

  lemma ExpiresEarly()
    ensures Step(Q12, Expire(1), Q13) == true
    ensures |Q13.pcs| == 4 && Q13.pcs[3] == Armed(K, 0) && |Q13.core.slots| == 1 && Q13.core.slots[0].state == Gone && K !in Q13.core.items
  {
    SecondSleep();
    SleepsAgain();
    hide LookupStep, WakeOkStep, ReleaseStep, ClaimStep, SleepOkStep;
  }

  /** A stretch of steps without Reset. */
  ghost predicate Leads(from: System, run: seq<System>, acts: seq<Action>, to: System) {
    && |run| == |acts| + 1 && run[0] == from && run[|acts|] == to && !UsesReset(acts)
    && forall i :: 0 <= i < |acts| ==> Step(run[i], acts[i], run[i + 1])
  }

  lemma Joined(a: System, run: seq<System>, acts: seq<Action>, b: System, more: seq<System>, next: seq<Action>, c: System)
    returns (all: seq<System>, both: seq<Action>)
    requires Leads(a, run, acts, b) && Leads(b, more, next, c)
    ensures Leads(a, all, both, c)
  {
    hide Step;
    all, both := run + more[1..], acts + next;
    forall i | 0 <= i < |both| ensures Step(all[i], both[i], all[i + 1]) && !both[i].ResetStart? {
      if i >= |acts| {
        var j := i - |acts|;
        assert all[i] == more[j] && all[i + 1] == more[j + 1] && both[i] == next[j];
      }
    }
  }

  lemma FirstHalf()
    ensures exists run, acts :: Leads(Init(10), run, acts, Q7)
  {
    hide Step, Init;
    GraceOpens();
    GraceDrops();
    GraceArms();
    var run := [Init(10), Q1, Q2, Q3, Q4, Q5, Q6, Q6.(pcs := [Done, Expiring(K, 0)]), Q7];
    var acts := [Spawn(K), Lookup(0), CreateOk(0, V, false), Release(0), Claim(0), SleepOk(0), Fire(1), Spawn(K)];
    assert Leads(Init(10), run, acts, Q7);
  }

  lemma SecondHalf()
    ensures exists run, acts :: Leads(Q7, run, acts, Q13)
  {
    hide Step, LookupStep, WakeOkStep, ReleaseStep, ClaimStep, SleepOkStep, ExpiryStep;
    WakesAgain();
    DropsAgain();
    SleepsAgain();
    ExpiresEarly();
    var run, acts := [Q7, Q8, Q9, Q10, Q11, Q12, Q13], [Lookup(2), WakeOk(2), Release(2), Claim(2), SleepOk(2), Expire(1)];
    assert Leads(Q7, run, acts, Q13);
  }

  lemma WholeRun()
    ensures exists run, acts :: Leads(Init(10), run, acts, Q13)
  {
    hide Leads, Init, ExpiryStep;
    FirstHalf();
    SecondHalf();
    var run, acts :| Leads(Init(10), run, acts, Q7);
    var more, next :| Leads(Q7, more, next, Q13);
    var all, both := Joined(Init(10), run, acts, Q7, more, next, Q13);
  }

  /** A timer fires, and before its expiry runs the key is opened and dropped again: the expiry then ends the new
      sleep, although the timer armed for it is still waiting. */
  lemma StaleExpiry()
    ensures exists run, acts :: Run(run, acts) && !UsesReset(acts) && run[|acts|] == Q13
    ensures |Q12.pcs| == 4 && Q12.pcs[3] == Armed(K, 0) && |Q13.pcs| == 4 && Q13.pcs[3] == Armed(K, 0)
    ensures |Q13.core.slots| == 1 && Q13.core.slots[0].state == Gone && K !in Q13.core.items
  {
    hide Step, LookupStep, WakeOkStep, ReleaseStep, ClaimStep, SleepOkStep, ExpiryStep, Init;
    SecondSleep();
    ExpiresEarly();
    WholeRun();
    var run, acts :| Leads(Init(10), run, acts, Q13);
    assert Run(run, acts);
  }
}
