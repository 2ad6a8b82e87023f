/** The limiter as an object: window records in a map, updated under the mutex. Each method is one
    stretch of code under the mutex and is proved against a function on the buffer's contents; the
    lemmas show that the transition system changes its buffer by the same functions. */
module WindowLimiter {
  import opened Basics
  import opened WindowSystem
  import T = WindowTimer

  type Buffer = map<Key, Window>

  function StoredIn(b: Buffer, k: Key, known: int, e: int): Buffer {
    b[k := if k in b then Refreshed(b[k], known, e) else Fresh(known, e)]
  }

  function MarkedIn(b: Buffer): Buffer { map k | k in b :: if Unflushed(b[k]) then Marked(b[k]) else b[k] }

  function SettledIn(b: Buffer, job: Job, ok: bool, n: int): Buffer {
    if job.key !in b then b else b[job.key := if ok then Acked(b[job.key], job.delta, n) else Unmarked(b[job.key])]
  }

  function SweptIn(b: Buffer, now: int): Buffer { map k | k in b && !Stale(b[k], now) :: b[k] }

  function JobIn(b: Buffer, k: Key): Job
    requires k in b
  {
    Job(k, b[k].localDelta, b[k].expireAt)
  }

  /** Every unflushed window outside `rest` has one job, with its whole delta, and no other window has any. */
  ghost predicate JobsBeyond(b: Buffer, rest: set<Key>, jobs: seq<Job>) {
    && (forall i, j :: 0 <= i < j < |jobs| ==> jobs[i].key != jobs[j].key)
    && (forall i :: 0 <= i < |jobs| ==> JobFits(b, rest, jobs[i]))
    && (forall k :: k in b && k !in rest && Unflushed(b[k]) ==> JobIn(b, k) in jobs)
  }

  predicate JobFits(b: Buffer, rest: set<Key>, job: Job) {
    job.key in b && job.key !in rest && Unflushed(b[job.key]) && job == JobIn(b, job.key)
  }

  ghost predicate JobsOf(b: Buffer, jobs: seq<Job>) { JobsBeyond(b, {}, jobs) }

  lemma NoJobs(b: Buffer)
    ensures JobsBeyond(b, b.Keys, [])
  {
  }

  lemma OneMoreJob(b: Buffer, rest: set<Key>, jobs: seq<Job>, k: Key)
    requires JobsBeyond(b, rest, jobs) && k in rest && k in b
    ensures JobsBeyond(b, rest - {k}, if Unflushed(b[k]) then jobs + [JobIn(b, k)] else jobs)
  {
    forall i | 0 <= i < |jobs| ensures JobFits(b, rest - {k}, jobs[i]) { assert JobFits(b, rest, jobs[i]); }
  }

  class WindowState {
    var redisKnown: int
    var localDelta: int
    var expireAt: int
    var flushDelta: int

    function View(): Window
      reads this
    {
      Window(redisKnown, localDelta, expireAt, flushDelta)
    }

    constructor (known: int, e: int)
      ensures View() == Fresh(known, e)
    {
      redisKnown, localDelta, expireAt, flushDelta := known, 0, e, 0;
    }
  }

  /** A time.AfterFunc timer. */
  class FlushTimer {
    ghost const id: nat
    var state: T.Timer

    constructor (ghost id: nat)
      ensures this.id == id && state == T.Armed
    {
      this.id := id;
      state := T.Armed;
    }

    /** Stop, and whether it came before the timer fired. */
    method Stop() returns (inTime: bool)
      modifies this
      ensures inTime == (old(state) == T.Armed) && state == if inTime then T.Stopped else old(state)
    {
      inTime := state == T.Armed;
      if inTime { state := T.Stopped; }
    }
  }

  ghost function States(timers: seq<FlushTimer>): seq<T.Timer>
    reads timers
  {
    seq(|timers|, i requires 0 <= i < |timers| reads timers => timers[i].state)
  }

  class Limiter {
    var windows: map<Key, WindowState>
    const buffered: bool
    var closed: bool
    var stopping: bool
    var flushTimer: FlushTimer?
    var flushBusy: int
    // Every timer made so far, by number.
    ghost var timers: seq<FlushTimer>

    ghost predicate Valid()
      reads this
    {
      forall j, k :: j in windows && k in windows && j != k ==> windows[j] != windows[k]
    }

    ghost function Contents(): Buffer
      reads this, windows.Values
    {
      map k | k in windows :: windows[k].View()
    }

    ghost predicate TimerOK()
      reads this
    {
      && (forall i :: 0 <= i < |timers| ==> timers[i].id == i)
      && (flushTimer != null ==> flushTimer.id < |timers| && timers[flushTimer.id] == flushTimer)
    }

    /** What the timer fields and the timer objects show. */
    ghost function TimerView(): T.Core
      reads this, timers
    {
      T.Core(buffered, closed, stopping, if flushTimer == null then None else Some(flushTimer.id), States(timers), flushBusy)
    }

    constructor (buffered: bool)
      ensures Valid() && TimerOK() && Contents() == map[] && TimerView() == T.Init(buffered).core
    {
      windows := map[];
      this.buffered, closed, stopping, flushTimer, flushBusy, timers := buffered, false, false, null, 0, [];
      new;
      if buffered { StartFlushLocked(); }
    }

    // -------------------------------------------------------------- the buffer

    /** windowLocked and peekCountLocked before their GET: the window, its expiry time raised. */
    method Lookup(k: Key, e: int) returns (state: WindowState?)
      requires Valid()
      modifies windows.Values
      ensures state == if k in windows then windows[k] else null
      ensures Contents() == if k in windows then old(Contents())[k := Raised(old(Contents())[k], e)] else old(Contents())
    {
      if k !in windows { return null; }
      state := windows[k];
      if e > state.expireAt { state.expireAt := e; }
    }

    method ApplyGetLocked(k: Key, known: int, e: int) returns (state: WindowState)
      requires Valid()
      modifies this`windows, windows.Values
      ensures Valid() && k in windows && windows[k] == state
      ensures forall j :: j in old(windows) ==> j in windows && windows[j] == old(windows)[j]
      ensures Contents() == StoredIn(old(Contents()), k, known, e)
      ensures state.redisKnown == if k !in old(windows) || old(windows[k].localDelta) == 0 then known else old(windows[k].redisKnown)
      ensures state.localDelta == if k !in old(windows) then 0 else old(windows[k].localDelta)
    {
      if k !in windows {
        state := new WindowState(known, e);
        windows := windows[k := state];
        return;
      }
      state := windows[k];
      if e > state.expireAt { state.expireAt := e; }
      if state.localDelta == 0 { state.redisKnown := known; }
    }

    /** The hit, on the record the Take holds, which may have been swept meanwhile. */
    method Hit(state: WindowState, ghost k: Key)
      requires Valid() && (state in windows.Values ==> k in windows && windows[k] == state)
      modifies state
      ensures state.View() == Counted(old(state.View()))
      ensures Contents() == if state in windows.Values then old(Contents())[k := Counted(old(Contents())[k])] else old(Contents())
    {
      state.localDelta := state.localDelta + 1;
    }

    /** The first loop of flushPendingLocked; the runtime walks the map in any order. */
    method MarkPending() returns (pending: seq<Job>)
      requires Valid()
      modifies windows.Values
      ensures Contents() == MarkedIn(old(Contents())) && JobsOf(old(Contents()), pending)
    {
      hide JobsBeyond;
      ghost var b := Contents();
      var todo := windows.Keys;
      pending := [];
      NoJobs(b);
      assert b.Keys == todo;
      while todo != {}
        invariant todo <= windows.Keys
        invariant forall k :: k in windows ==> windows[k].View() == if k !in todo && Unflushed(b[k]) then Marked(b[k]) else b[k]
        invariant JobsBeyond(b, todo, pending)
        decreases |todo|
      {
        var k :| k in todo;
        var state := windows[k];
        OneMoreJob(b, todo, pending, k);
        if state.localDelta > 0 && state.flushDelta == 0 {
          state.flushDelta := state.localDelta;
          pending := pending + [Job(k, state.flushDelta, state.expireAt)];
        }
        todo := todo - {k};
      }
    }

    /** What follows an EVAL: the window is looked up again. */
    method SettleJob(job: Job, ok: bool, n: int)
      requires Valid()
      modifies windows.Values
      ensures Contents() == SettledIn(old(Contents()), job, ok, n)
      ensures job.key in windows ==>
                var state := windows[job.key];
                && state.flushDelta == 0 && state.redisKnown == (if ok then n else old(windows[job.key].redisKnown))
                && state.localDelta == old(windows[job.key].localDelta) - if ok then job.delta else 0
    {
      if job.key !in windows { return; }
      var state := windows[job.key];
      if !ok {
        state.flushDelta := 0;
        return;
      }
      state.redisKnown := n;
      state.localDelta := state.localDelta - job.delta;
      state.flushDelta := 0;
    }

    /** The last loop of flushPendingLocked. */
    method Sweep(now: int)
      requires Valid()
      modifies this`windows
      ensures Valid() && Contents() == SweptIn(old(Contents()), now)
      ensures forall k :: k in windows ==> k in old(windows) && windows[k] == old(windows)[k]
    {
      ghost var all := windows;
      ghost var b := Contents();
      var todo := windows.Keys;
      while todo != {}
        invariant todo <= windows.Keys && windows.Keys <= all.Keys
        invariant forall k :: k in windows ==> windows[k] == all[k]
        invariant forall k :: k in all ==> (k in windows <==> k in todo || !Stale(b[k], now))
        decreases |todo|
      {
        var k :| k in todo;
        var state := windows[k];
        assert state.View() == b[k];
        if state.localDelta == 0 && state.flushDelta == 0 && (state.expireAt == 0 || now >= state.expireAt) {
          windows := map x | x in windows && x != k :: windows[x];
        }
        todo := todo - {k};
      }
    }

    // -------------------------------------------------------------- the timer

    /** time.AfterFunc: a new timer object, armed, in the timer field. */
    method AfterFunc()
      requires TimerOK()
      modifies this`flushTimer, this`timers
      ensures TimerOK() && fresh(flushTimer) && TimerView() == T.AfterFunc(old(TimerView()))
    {
      var made := new FlushTimer(|timers|);
      flushTimer := made;
      timers := timers + [made];
    }

    /** startFlushLocked */
    method StartFlushLocked()
      requires TimerOK()
      modifies this`flushTimer, this`flushBusy, this`timers
      ensures TimerOK() && TimerView() == T.StartFlush(old(TimerView()))
    {
      if flushTimer != null { return; }
      flushBusy := flushBusy + 1;
      AfterFunc();
    }

    method Wake()
      requires TimerOK()
      modifies this`flushTimer, this`flushBusy, this`timers
      ensures TimerOK() && TimerView() == T.WakeSection(old(TimerView()))
    {
      if closed || !buffered || flushTimer != null || stopping { return; }
      StartFlushLocked();
    }

    /** The section of flushAfterTick; whether the timer was armed again. */
    method TickEnd() returns (again: bool)
      requires TimerOK()
      modifies this`flushTimer, this`timers
      ensures TimerOK() && (TimerView(), again) == T.TickSection(old(TimerView()))
    {
      if closed || stopping || flushTimer == null { return false; }
      AfterFunc();
      again := true;
    }

    /** The first section of stopFlushAndWait; the timer it took, if there was one. */
    method StopBegin() returns (taken: FlushTimer?)
      requires TimerOK()
      modifies this`stopping, this`flushTimer
      ensures TimerOK() && taken == old(flushTimer)
      ensures (TimerView(), if taken == null then None else Some(taken.id)) == T.StopSection(old(TimerView()))
    {
      stopping := true;
      taken := flushTimer;
      flushTimer := null;
      if taken == null { stopping := false; }
    }

    /** stopFlushAndWait after it released the mutex: a timer stopped in time never runs, so its Done is
        called here; whether it was. */
    method StopTaken(taken: FlushTimer) returns (inTime: bool)
      requires TimerOK() && taken.id < |timers| && timers[taken.id] == taken
      modifies this`flushBusy, taken
      ensures TimerOK() && inTime == (old(TimerView()).timers[taken.id] == T.Armed)
      ensures TimerView() == if inTime then old(TimerView()).(timers := old(TimerView()).timers[taken.id := T.Stopped], busy := old(flushBusy) - 1)
                             else old(TimerView())
    {
      inTime := taken.Stop();
      assert inTime ==> States(timers) == old(States(timers))[taken.id := T.Stopped];
      assert !inTime ==> States(timers) == old(States(timers));
      if inTime { flushBusy := flushBusy - 1; }
    }
  }

  // ---------------------------------------------------------------- the transition system's buffer

  function BufferOf(s: System): Buffer { map k | k in s.windows && Live(s, k) :: At(s, k) }

  /** Every key has its own window. */
  ghost predicate Apart(s: System) {
    forall k :: k in s.windows ==> Live(s, k) && s.heap[s.windows[k]].key == k
  }

  lemma StoredAgrees(s: System, k: Key, known: int, e: int)
    requires Apart(s)
    ensures BufferOf(Stored(s, k, known, e)) == StoredIn(BufferOf(s), k, known, e)
  {
  }

  lemma HitAgrees(s: System, k: Key, wid: nat)
    requires Apart(s) && wid < |s.heap| && s.heap[wid].key == k
    ensures BufferOf(Hit(s, k, wid)) ==
            if k in s.windows && s.windows[k] == wid then BufferOf(s)[k := Counted(BufferOf(s)[k])] else BufferOf(s)
  {
  }

  lemma MarkAgrees(s: System, t: nat, order: seq<Key>)
    requires Apart(s) && Picks(s, order)
    ensures BufferOf(MarkAll(s, t, order)) == MarkedIn(BufferOf(s)) && JobsOf(BufferOf(s), JobsFor(s, order))
  {
    var jobs := JobsFor(s, order);
    forall i | 0 <= i < |jobs| ensures JobFits(BufferOf(s), {}, jobs[i]) { assert order[i] in order; }
    forall k | k in BufferOf(s) && Unflushed(BufferOf(s)[k]) ensures JobIn(BufferOf(s), k) in jobs {
      var i :| 0 <= i < |order| && order[i] == k;
      assert jobs[i] == JobIn(BufferOf(s), k);
    }
  }

  lemma SettledAgrees(s: System, job: Job, ok: bool, applied: int, reply: int)
    requires Apart(s)
    ensures BufferOf(Settled(s, job, ok, applied, reply)) == SettledIn(BufferOf(s), job, ok, reply)
  {
  }

  lemma SweptAgrees(s: System, now: int)
    requires Apart(s)
    ensures BufferOf(Swept(s, now)) == SweptIn(BufferOf(s), now)
  {
  }
}
