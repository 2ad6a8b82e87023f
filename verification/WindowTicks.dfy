/** When the flush timer runs: what arms it, that it goes on ticking, and that nothing arms it after Close. */
module WindowTicks {
  import opened Basics
  import opened WindowTimer

  // ---------------------------------------------------------------- arming

  /** The limiter has a timer, and that timer is armed. */
  predicate IsArmed(c: Core) { c.flushTimer.Some? && c.flushTimer.value < |c.timers| && c.timers[c.flushTimer.value] == Armed }

  /** A new limiter ticks exactly if it buffers. */
  lemma NewTicksIff(buffered: bool)
    ensures var c := Init(buffered).core;
            && (IsArmed(c) <==> buffered) && c.busy == |c.timers| && |c.timers| == (if buffered then 1 else 0)
            && c.buffered == buffered && !c.closed && !c.stopping && (c.flushTimer.Some? <==> buffered)
  {
  }

  /** Wake arms a timer exactly if the limiter buffers, is open, is not stopping and has none. */
  lemma WakeArmsIff(run: seq<System>, acts: seq<Action>, i: nat)
    requires Run(run, acts) && i < |acts| && acts[i].Wake?
    ensures var c, d := run[i].core, run[i + 1].core;
            if c.buffered && !c.closed && !c.stopping && c.flushTimer.None?
            then IsArmed(d) && |d.timers| == |c.timers| + 1 && d.busy == c.busy + 1
            else d == c
  {
    assert Step(run[i], acts[i], run[i + 1]);
  }

  /** A tick arms the next timer exactly if no stop has taken the timer and the limiter is open; else it is the last
      and goes on to its Done. */
  lemma TickArmsIff(run: seq<System>, acts: seq<Action>, i: nat, t: nat)
    requires Run(run, acts) && i < |acts| && acts[i] == TickEnd(t)
    ensures t < |run[i + 1].pcs|
    ensures var c, d := run[i].core, run[i + 1].core;
            if c.flushTimer.Some? && !c.closed && !c.stopping
            then IsArmed(d) && |d.timers| == |c.timers| + 1 && d.busy == c.busy && run[i + 1].pcs[t].Over?
            else d == c && run[i + 1].pcs[t].Finishing?
  {
    assert Step(run[i], acts[i], run[i + 1]);
  }

  /** A stop takes the timer away, so that no Wake and no tick arms one until it clears `stopping`. */
  lemma StopTakes(run: seq<System>, acts: seq<Action>, i: nat, t: nat)
    requires Run(run, acts) && i < |acts| && acts[i] == StopBegin(t)
    ensures t < |run[i + 1].pcs| && run[i + 1].core.flushTimer.None?
    ensures var c := run[i].core;
            if c.flushTimer.Some? then run[i + 1].core.stopping && run[i + 1].pcs[t] == Stopping(c.flushTimer.value)
            else !run[i + 1].core.stopping && run[i + 1].pcs[t] == Over
  {
    assert Step(run[i], acts[i], run[i + 1]);
  }

  /** An open limiter that has a timer has it armed, or its tick is running: buffered counts will be flushed. */
  lemma TimerRuns(run: seq<System>, acts: seq<Action>, i: nat)
    requires SerialRun(run, acts) && i < |run|
    requires run[i].core.flushTimer.Some? && !run[i].core.closed
    ensures IsArmed(run[i].core) || exists t :: 0 <= t < |run[i].pcs| && run[i].pcs[t].Ticking?
  {
    hide Step, Serial, OneStopper;
    RunInv(run, acts, i);
    var tok :| Good(run[i], tok);
    if tok.TheThread? { assert Ticks(run[i], tok.t); }
  }

  // ---------------------------------------------------------------- open limiters keep their timer

  /** Only a Wake gives a limiter a timer and only a stop takes it away; a Close is for good. */
  lemma TimerChanges(s: System, a: Action, r: System)
    requires Step(s, a, r)
    ensures r.core.buffered == s.core.buffered
    ensures s.core.flushTimer.None? && r.core.flushTimer.Some? ==> a.Wake? && s.core.buffered && !s.core.closed && !s.core.stopping
    ensures s.core.flushTimer.Some? && r.core.flushTimer.None? ==> a.StopBegin?
    ensures r.core.closed == (s.core.closed || a.MarkClosed?)
    ensures s.core.closed ==> |r.core.timers| == |s.core.timers| && r.core.busy <= s.core.busy
  {
  }

  /** After Close no timer is ever armed again, and the wait group only falls. */
  lemma {:induction false} ClosedArmsNothing(run: seq<System>, acts: seq<Action>, i: nat, j: nat)
    requires Run(run, acts) && i <= j < |run| && run[i].core.closed
    ensures run[j].core.closed && |run[j].core.timers| == |run[i].core.timers| && run[j].core.busy <= run[i].core.busy
  {
    hide Step;
    if i < j {
      ClosedArmsNothing(run, acts, i, j - 1);
      TimerChanges(run[j - 1], acts[j - 1], run[j]);
    }
  }

  /** A limiter made to buffer has its timer in every state up to the first stop. */
  lemma {:induction false} TicksUntilStopped(run: seq<System>, acts: seq<Action>, i: nat)
    requires Run(run, acts) && i < |run| && run[0] == Init(true) && forall j :: 0 <= j < i ==> !acts[j].StopBegin?
    ensures run[i].core.flushTimer.Some?
  {
    hide Step;
    if i == 0 { NewTicksIff(true); }
    else {
      TicksUntilStopped(run, acts, i - 1);
      TimerChanges(run[i - 1], acts[i - 1], run[i]);
    }
  }
}
