/** The flush timer of windowcounter/limiter.go: arming, ticking, and the stop-and-wait of Sleep and
    Close, as a transition system over the critical sections, the timer and the wait group. */
module WindowTimer {
  import opened Basics

  datatype Timer = Armed | Fired | Stopped

  /** The limiter's timer fields. `busy` is the wait group's counter. */
  datatype Core = Core(buffered: bool, closed: bool, stopping: bool, flushTimer: Option<nat>, timers: seq<Timer>, busy: int)

  datatype Pc =
    | CloseCall                 // Close before it marks the limiter closed
    | StopCall                  // Sleep or Close before stopFlushAndWait
    | Stopping(timer: nat)      // has taken the timer and will call Stop on it
    | Releasing                 // stopped the timer in time and will call Done
    | Waiting                   // in Wait
    | Clearing                  // Wait has returned
    | Ticking(timer: nat)       // flushAfterTick before its section
    | Finishing                 // a tick that will not re-arm, before its Done
    | Over

  datatype System = System(core: Core, pcs: seq<Pc>)

  datatype Action =
    | CallSleep
    | CallClose
    | Wake
    | Fire(timer: nat)
    | MarkClosed(t: nat)
    | StopBegin(t: nat)
    | StopTimer(t: nat)
    | Release(t: nat)
    | WaitReturns(t: nat)
    | Clear(t: nat)
    | TickEnd(t: nat)
    | TickDone(t: nat)

  // ---------------------------------------------------------------- critical sections

  /** time.AfterFunc */
  function AfterFunc(c: Core): Core { c.(timers := c.timers + [Armed], flushTimer := Some(|c.timers|)) }

  /** startFlushLocked */
  function StartFlush(c: Core): Core {
    if c.flushTimer.Some? then c else AfterFunc(c.(busy := c.busy + 1))
  }

  function WakeSection(c: Core): Core {
    if c.closed || !c.buffered || c.flushTimer.Some? || c.stopping then c else StartFlush(c)
  }

  /** The section of flushAfterTick; whether it armed another timer. */
  function TickSection(c: Core): (Core, bool) {
    if c.closed || c.stopping || c.flushTimer.None? then (c, false) else (AfterFunc(c), true)
  }

  /** The first section of stopFlushAndWait; the timer it took, if there was one. */
  function StopSection(c: Core): (Core, Option<nat>) {
    if c.flushTimer.None? then (c.(stopping := false), None)
    else (c.(stopping := true, flushTimer := None), c.flushTimer)
  }

  function Init(buffered: bool): System {
    var c := Core(buffered, false, false, None, [], 0);
    System(if buffered then StartFlush(c) else c, [])
  }

  // ---------------------------------------------------------------- steps

  function Goto(s: System, t: nat, c: Core, pc: Pc): System
    requires t < |s.pcs|
  {
    System(c, s.pcs[t := pc])
  }

  predicate Step(s: System, a: Action, r: System) {
    var c := s.core;
    match a
    case CallSleep => r == s.(pcs := s.pcs + [StopCall])
    case CallClose => r == s.(pcs := s.pcs + [CloseCall])
    case Wake => r == s.(core := WakeSection(c))
    case Fire(i) => i < |c.timers| && c.timers[i] == Armed
                    && r == System(c.(timers := c.timers[i := Fired]), s.pcs + [Ticking(i)])
    case MarkClosed(t) => t < |s.pcs| && s.pcs[t].CloseCall?
                          && r == Goto(s, t, c.(closed := true), if c.closed then Over else StopCall)
    case StopBegin(t) => t < |s.pcs| && s.pcs[t].StopCall?
                         && r == Goto(s, t, StopSection(c).0, if c.flushTimer.None? then Over else Stopping(c.flushTimer.value))
    case StopTimer(t) => t < |s.pcs| && s.pcs[t].Stopping? && s.pcs[t].timer < |c.timers|
                         && (if c.timers[s.pcs[t].timer] == Armed
                             then r == Goto(s, t, c.(timers := c.timers[s.pcs[t].timer := Stopped]), Releasing)
                             else r == Goto(s, t, c, Waiting))
    case Release(t) => t < |s.pcs| && s.pcs[t].Releasing? && r == Goto(s, t, c.(busy := c.busy - 1), Waiting)
    case WaitReturns(t) => t < |s.pcs| && s.pcs[t].Waiting? && c.busy == 0 && r == Goto(s, t, c, Clearing)
    case Clear(t) => t < |s.pcs| && s.pcs[t].Clearing? && r == Goto(s, t, c.(stopping := false), Over)
    case TickEnd(t) => t < |s.pcs| && s.pcs[t].Ticking?
                       && r == Goto(s, t, TickSection(c).0, if TickSection(c).1 then Over else Finishing)
    case TickDone(t) => t < |s.pcs| && s.pcs[t].Finishing? && r == Goto(s, t, c.(busy := c.busy - 1), Over)
  }

  predicate Stops(pc: Pc) { pc.Stopping? || pc.Releasing? || pc.Waiting? || pc.Clearing? }

  /** Sleep and Close calls do not overlap in stopFlushAndWait. */
  ghost predicate Serial(s: System, a: Action) {
    a.StopBegin? ==> forall u :: 0 <= u < |s.pcs| ==> !Stops(s.pcs[u])
  }

  ghost predicate Run(run: seq<System>, acts: seq<Action>) {
    && |run| == |acts| + 1 && (run[0] == Init(true) || run[0] == Init(false))
    && forall i :: 0 <= i < |acts| ==> Step(run[i], acts[i], run[i + 1])
  }

  ghost predicate SerialRun(run: seq<System>, acts: seq<Action>) {
    Run(run, acts) && forall i :: 0 <= i < |acts| ==> Serial(run[i], acts[i])
  }

  // ---------------------------------------------------------------- the wait group's one unit

  /** Who owes the wait group a Done: an armed timer or a thread. */
  datatype Token = NoOne | TheTimer(timer: nat) | TheThread(t: nat)

  predicate Owes(pc: Pc) { pc.Ticking? || pc.Finishing? || pc.Releasing? }

  ghost predicate OwedBy(s: System, tok: Token) {
    && s.core.busy == (if tok.NoOne? then 0 else 1)
    && (forall i :: 0 <= i < |s.core.timers| ==> (s.core.timers[i] == Armed <==> tok == TheTimer(i)))
    && (forall t :: 0 <= t < |s.pcs| ==> (Owes(s.pcs[t]) <==> tok == TheThread(t)))
    && (tok.TheTimer? ==> tok.timer < |s.core.timers|)
    && (tok.TheThread? ==> tok.t < |s.pcs|)
  }

  /** A stop is in progress exactly while `stopping` is set, and it is the only one. */
  ghost predicate OneStopper(s: System) {
    && (s.core.stopping ==> s.core.flushTimer.None? && exists t :: 0 <= t < |s.pcs| && Stops(s.pcs[t]))
    && (forall t :: 0 <= t < |s.pcs| && Stops(s.pcs[t]) ==> s.core.stopping)
    && (forall t, u :: 0 <= t < |s.pcs| && 0 <= u < |s.pcs| && Stops(s.pcs[t]) && Stops(s.pcs[u]) ==> t == u)
  }

  predicate Ticks(s: System, t: nat) { t < |s.pcs| && s.pcs[t].Ticking? }

  /** Who may owe, given the fields and the stopper's place. */
  ghost predicate TokenOK(s: System, tok: Token) {
    var c := s.core;
    && (!c.stopping && c.flushTimer.None? ==> tok.NoOne?)
    && (c.flushTimer.Some? ==> c.flushTimer.value < |c.timers| && (tok.TheTimer? ==> tok.timer == c.flushTimer.value))
    && (c.flushTimer.Some? && !c.closed ==> tok.TheTimer? || (tok.TheThread? && Ticks(s, tok.t)))
    && (c.flushTimer.Some? && tok.TheThread? ==> tok.t < |s.pcs| && !s.pcs[tok.t].Releasing?)
    && (forall t :: 0 <= t < |s.pcs| ==>
          match s.pcs[t]
          case Stopping(i) => i < |c.timers| && (tok.TheTimer? ==> tok.timer == i)
          case Waiting => !tok.TheTimer?
          case Releasing => tok == TheThread(t)
          case Clearing => tok.NoOne?
          case _ => true)
  }

  ghost predicate Good(s: System, tok: Token) { OwedBy(s, tok) && OneStopper(s) && TokenOK(s, tok) }

  ghost predicate Inv(s: System) { exists tok :: Good(s, tok) }

  lemma GoodInit(buffered: bool)
    ensures Inv(Init(buffered))
  {
    assert Good(Init(buffered), if buffered then TheTimer(0) else NoOne);
  }

  function NextToken(s: System, a: Action, r: System, tok: Token): Token {
    match a
    case Wake => if r.core.busy > s.core.busy then TheTimer(|s.core.timers|) else tok
    case Fire(_) => TheThread(|s.pcs|)
    case StopTimer(t) => if t < |r.pcs| && r.pcs[t].Releasing? then TheThread(t) else tok
    case Release(_) => NoOne
    case TickEnd(t) => if t < |r.pcs| && r.pcs[t].Over? then TheTimer(|s.core.timers|) else tok
    case TickDone(_) => NoOne
    case _ => tok
  }

  lemma StepOwed(s: System, a: Action, r: System, tok: Token)
    requires Good(s, tok) && Step(s, a, r)
    ensures OwedBy(r, NextToken(s, a, r, tok))
  {
    if a.Wake? || a.Fire? || a.StopTimer? || a.TickEnd? { ArmOwed(s, a, r, tok); } else { OtherOwed(s, a, r, tok); }
  }

  lemma ArmOwed(s: System, a: Action, r: System, tok: Token)
    requires Good(s, tok) && Step(s, a, r) && (a.Wake? || a.Fire? || a.StopTimer? || a.TickEnd?)
    ensures OwedBy(r, NextToken(s, a, r, tok))
  {
    hide OneStopper;
  }

  lemma OtherOwed(s: System, a: Action, r: System, tok: Token)
    requires Good(s, tok) && Step(s, a, r) && !a.Wake? && !a.Fire? && !a.StopTimer? && !a.TickEnd?
    ensures OwedBy(r, NextToken(s, a, r, tok))
  {
    hide OneStopper, TokenOK;
  }

  /** Only the ends of a stop change who is stopping. */
  lemma SameStopper(s: System, a: Action, r: System)
    requires Step(s, a, r) && !a.StopBegin? && !a.Clear?
    ensures |s.pcs| <= |r.pcs| && r.core.stopping == s.core.stopping
    ensures s.core.stopping ==> r.core.flushTimer == s.core.flushTimer
    ensures forall t :: 0 <= t < |r.pcs| ==> Stops(r.pcs[t]) == (t < |s.pcs| && Stops(s.pcs[t]))
  {
  }

  lemma StepStopper(s: System, a: Action, r: System)
    requires OneStopper(s) && Step(s, a, r) && Serial(s, a)
    ensures OneStopper(r)
  {
    if a.StopBegin? {
      assert s.core.flushTimer.Some? ==> Stops(r.pcs[a.t]);
    } else if !a.Clear? {
      hide Step, Stops;
      SameStopper(s, a, r);
      if s.core.stopping {
        var w :| 0 <= w < |s.pcs| && Stops(s.pcs[w]);
        assert Stops(r.pcs[w]);
      }
    }
  }

  lemma StepToken(s: System, a: Action, r: System, tok: Token)
    requires Good(s, tok) && Step(s, a, r) && Serial(s, a)
    ensures TokenOK(r, NextToken(s, a, r, tok))
  {
    hide OwedBy, OneStopper, TokenOK, Step, Serial;
    if a.Wake? || a.Fire? || a.TickEnd? || a.StopTimer? { ArmToken(s, a, r, tok); } else { OtherToken(s, a, r, tok); }
  }

  lemma ArmToken(s: System, a: Action, r: System, tok: Token)
    requires Good(s, tok) && Step(s, a, r) && (a.Wake? || a.Fire? || a.TickEnd? || a.StopTimer?)
    ensures TokenOK(r, NextToken(s, a, r, tok))
  {
  }

  lemma OtherToken(s: System, a: Action, r: System, tok: Token)
    requires Good(s, tok) && Step(s, a, r) && Serial(s, a) && !a.Wake? && !a.Fire? && !a.TickEnd? && !a.StopTimer?
    ensures TokenOK(r, NextToken(s, a, r, tok))
  {
  }

  lemma StepGood(s: System, a: Action, r: System)
    requires Inv(s) && Step(s, a, r) && Serial(s, a)
    ensures Inv(r)
  {
    hide OwedBy, OneStopper, TokenOK, Step, Serial;
    var tok :| Good(s, tok);
    StepOwed(s, a, r, tok);
    StepStopper(s, a, r);
    StepToken(s, a, r, tok);
    assert Good(r, NextToken(s, a, r, tok));
  }

  // ---------------------------------------------------------------- over whole runs

  lemma {:induction false} RunInv(run: seq<System>, acts: seq<Action>, i: nat)
    requires SerialRun(run, acts) && i < |run|
    ensures Inv(run[i])
  {
    hide Inv, Step, Serial;
    if i == 0 { GoodInit(true); GoodInit(false); }
    else { RunInv(run, acts, i - 1); StepGood(run[i - 1], acts[i - 1], run[i]); }
  }

  /** What the counter stands for: a timer that will fire, a tick that has not called Done, or a stop
      that caught the timer and has not called Done. */
  ghost predicate Pending(s: System) {
    || (exists i :: 0 <= i < |s.core.timers| && s.core.timers[i] == Armed)
    || (exists t :: 0 <= t < |s.pcs| && Owes(s.pcs[t]))
  }

  /** With stops serialized and any number of Wakes, the wait group's counter is 1 while something is
      pending and 0 otherwise; it is never negative, and only one thing is ever pending. */
  lemma BusyIsExact(run: seq<System>, acts: seq<Action>, i: nat)
    requires SerialRun(run, acts) && i < |run|
    ensures run[i].core.busy == if Pending(run[i]) then 1 else 0
    ensures var timers := run[i].core.timers;
            forall j, k :: 0 <= j < |timers| && 0 <= k < |timers| && timers[j] == Armed && timers[k] == Armed ==> j == k
    ensures forall t, u :: 0 <= t < |run[i].pcs| && 0 <= u < |run[i].pcs| && Owes(run[i].pcs[t]) && Owes(run[i].pcs[u]) ==> t == u
    ensures forall j, t :: 0 <= j < |run[i].core.timers| && 0 <= t < |run[i].pcs| && run[i].core.timers[j] == Armed ==> !Owes(run[i].pcs[t])
  {
    hide Step, Serial;
    RunInv(run, acts, i);
    var tok :| Good(run[i], tok);
  }

  /** When a stop clears `stopping`, no timer is armed and no tick is running; and a stop that returns
      early because there is no timer leaves nothing behind either. */
  lemma StoppedMeansQuiet(run: seq<System>, acts: seq<Action>, i: nat)
    requires SerialRun(run, acts) && i < |acts|
    requires acts[i].Clear? || (acts[i].StopBegin? && run[i].core.flushTimer.None?)
    ensures !Pending(run[i]) && !Pending(run[i + 1]) && run[i + 1].core.flushTimer.None? && run[i + 1].core.busy == 0
  {
    RunInv(run, acts, i);
    var tok :| Good(run[i], tok);
    assert Serial(run[i], acts[i]) && Step(run[i], acts[i], run[i + 1]);
  }

  /** How many steps the pending tick is from its Done. */
  function TickLeft(pc: Pc): nat { if pc.Ticking? then 2 else if pc.Finishing? then 1 else 0 }

  /** A stop in Wait either may return now or waits for one tick that is running; that tick's next
      step, which nothing blocks, brings it one step closer to Done. */
  lemma WaitIsDischarged(s: System, t: nat)
    requires Inv(s) && t < |s.pcs| && s.pcs[t].Waiting?
    ensures s.core.busy == 0 || exists u, a, r :: 0 <= u < |s.pcs| && TickLeft(s.pcs[u]) > 0 && Step(s, a, r)
                                  && u < |r.pcs| && TickLeft(r.pcs[u]) == TickLeft(s.pcs[u]) - 1
                                  && (a == TickEnd(u) || a == TickDone(u))
  {
    var tok :| Good(s, tok);
    if s.core.busy != 0 {
      var u := tok.t;
      if s.pcs[u].Ticking? {
        var r := Goto(s, u, TickSection(s.core).0, Finishing);
        assert Step(s, TickEnd(u), r);
      } else {
        var r := Goto(s, u, s.core.(busy := s.core.busy - 1), Over);
        assert Step(s, TickDone(u), r);
      }
    }
  }

  /** While a stop waits, nothing is added to the wait group and no timer is armed. */
  lemma NothingStartsWhileWaiting(s: System, a: Action, r: System, t: nat)
    requires Inv(s) && Step(s, a, r) && t < |s.pcs| && s.pcs[t].Waiting?
    ensures r.core.busy <= s.core.busy && r.core.timers == s.core.timers
  {
    var tok :| Good(s, tok);
    assert Stops(s.pcs[t]);
  }

  // ---------------------------------------------------------------- stops that overlap

  const W0 := Init(true)
  const W1 := System(W0.core.(timers := [Fired]), [Ticking(0)])
  const W2 := System(W1.core.(stopping := true, flushTimer := None), [Ticking(0), Stopping(0)])
  const W3 := System(W2.core, [Ticking(0), Waiting])
  const W4 := System(W3.core.(stopping := false), [Ticking(0), Waiting, Over])
  const W5 := System(AfterFunc(W4.core.(busy := 2)), [Ticking(0), Waiting, Over])
  const W6 := System(AfterFunc(W5.core), [Over, Waiting, Over])

  lemma FirstStop()
    ensures Step(W0, Fire(0), W1) && Step(W1, CallSleep, W1.(pcs := W1.pcs + [StopCall]))
    ensures Step(W1.(pcs := W1.pcs + [StopCall]), StopBegin(1), W2) && Step(W2, StopTimer(1), W3)
  {
  }

  lemma SecondStop()
    ensures Step(W3, CallSleep, W3.(pcs := W3.pcs + [StopCall])) && Step(W3.(pcs := W3.pcs + [StopCall]), StopBegin(2), W4)
    ensures Step(W4, Wake, W5) && Step(W5, TickEnd(0), W6)
  {
  }

  ghost predicate Steps(run: seq<System>, acts: seq<Action>) {
    |run| == |acts| + 1 && forall i :: 0 <= i < |acts| ==> Step(run[i], acts[i], run[i + 1])
  }

  lemma Joined(run: seq<System>, acts: seq<Action>, more: seq<System>, next: seq<Action>)
    requires Steps(run, acts) && Steps(more, next) && run[|acts|] == more[0]
    ensures Steps(run + more[1..], acts + next) && (run + more[1..])[|acts| + |next|] == more[|next|]
  {
    hide Step;
    var all, a := run + more[1..], acts + next;
    forall i | 0 <= i < |a| ensures Step(all[i], a[i], all[i + 1]) {
      if i >= |acts| {
        var j := i - |acts|;
        assert all[i] == more[j] && all[i + 1] == more[j + 1] && a[i] == next[j];
      }
    }
  }

  lemma FirstHalf()
    ensures exists run, acts :: Steps(run, acts) && run[0] == W0 && run[|acts|] == W3
  {
    hide Step;
    FirstStop();
    var run, acts := [W0, W1, W1.(pcs := W1.pcs + [StopCall]), W2, W3], [Fire(0), CallSleep, StopBegin(1), StopTimer(1)];
    assert Steps(run, acts);
  }

  lemma SecondHalf()
    ensures exists run, acts :: Steps(run, acts) && run[0] == W3 && run[|acts|] == W6
  {
    hide Step;
    SecondStop();
    var run, acts := [W3, W3.(pcs := W3.pcs + [StopCall]), W4, W5, W6], [CallSleep, StopBegin(2), Wake, TickEnd(0)];
    assert Steps(run, acts);
  }

  /** Two stops that overlap: the second finds no timer and clears `stopping` under the first, so a
      Wake arms a timer while the first still waits, and the old tick arms one more. */
  lemma OverlappingStops()
    ensures exists run: seq<System>, acts: seq<Action> :: Run(run, acts) && run[|acts|] == W6
    ensures W6.pcs[1].Waiting? && W6.core.busy == 2 && W6.core.timers == [Fired, Armed, Armed]
  {
    hide Step;
    FirstHalf();
    SecondHalf();
    var run, acts :| Steps(run, acts) && run[0] == W0 && run[|acts|] == W3;
    var more, next :| Steps(more, next) && more[0] == W3 && more[|next|] == W6;
    Joined(run, acts, more, next);
    assert Run(run + more[1..], acts + next);
  }
}
