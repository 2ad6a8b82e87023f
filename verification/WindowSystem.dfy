/** The write-back buffer of windowcounter/limiter.go as a transition system.

    One action is one stretch of code under the limiter's mutex, one Redis command, or one thing
    Redis does on its own. A thread that talks to Redis has released the mutex, so every other
    thread's action may come in between. Next to the program's own state the system keeps a ledger
    per window key: what Redis holds, what was taken, and what went astray. */
module WindowSystem {
  import opened Basics

  /** A Redis window key. */
  datatype Key = Key(name: string)

  /** One windowState. */
  datatype Window = Window(redisKnown: int, localDelta: int, expireAt: int, flushDelta: int)

  function Fresh(known: int, e: int): Window { Window(known, 0, e, 0) }

  function Raised(w: Window, e: int): Window { if e > w.expireAt then w.(expireAt := e) else w }

  /** A GET result is stored only while there is nothing unflushed. */
  function Refreshed(w: Window, known: int, e: int): Window {
    if w.localDelta == 0 then Raised(w, e).(redisKnown := known) else Raised(w, e)
  }

  function Counted(w: Window): Window { w.(localDelta := w.localDelta + 1) }

  predicate Unflushed(w: Window) { w.localDelta > 0 && w.flushDelta == 0 }

  function Marked(w: Window): Window { w.(flushDelta := w.localDelta) }

  function Acked(w: Window, delta: int, n: int): Window {
    w.(redisKnown := n, localDelta := w.localDelta - delta, flushDelta := 0)
  }

  function Unmarked(w: Window): Window { w.(flushDelta := 0) }

  /** What the sweep at the end of a flush deletes. */
  predicate Stale(w: Window, now: int) {
    w.localDelta == 0 && w.flushDelta == 0 && (w.expireAt == 0 || now >= w.expireAt)
  }

  datatype Job = Job(key: Key, delta: int, expireAt: int)

  /** A window object; it is made for one key and may outlive its place in the map. */
  datatype Cell = Cell(key: Key, w: Window)

  /** What happened to a key's hits. `redis` is the count Redis holds now and `expired` what it
      dropped with the key's TTL. `hits` counts Takes, `lost` those that counted on a window already
      swept, `ext` what other processes added, `inflight` what the current EVAL has added but the
      buffer does not know of, `dup` what an EVAL added beyond the delta that was acknowledged.
      `flusher` is the thread that has the key's delta in flight. */
  datatype Book = Book(redis: int, expired: int, inflight: int, flusher: Option<nat>, tally: Tally)
  datatype Tally = Tally(hits: int, lost: int, ext: int, dup: int)

  const EMPTY_BOOK := Book(0, 0, 0, None, Tally(0, 0, 0, 0))

  function GivenMore(b: Book, n: nat): Book { b.(redis := b.redis + n, tally := b.tally.(ext := b.tally.ext + n)) }

  /** Where a call stands while it does not hold the mutex. */
  datatype Pc =
    | TakeCall(cur: Key, prev: Key, e: int)
    | TakeGet(cur: Key, prev: Key, e: int)                              // GET of the current window
    | TakeGot(cur: Key, prev: Key, e: int, known: int)
    | TakePrevGet(cur: Key, prev: Key, e: int, wid: nat)                // holds the current window
    | TakePrevGot(cur: Key, prev: Key, e: int, wid: nat, known: int)
    | PeekCall(cur: Key, prev: Key, e: int)
    | PeekGet(cur: Key, prev: Key, e: int)
    | PeekGot(cur: Key, prev: Key, e: int, known: int)
    | PeekPrevGet(prev: Key)
    | PeekPrevGot(prev: Key, known: int)
    | FlushCall
    | Evaluating(jobs: seq<Job>, now: int, probe: bool, applied: int, reply: int)
    | Probing                                                          // GET whose value is not stored
    | Done

  datatype System = System(windows: map<Key, nat>, heap: seq<Cell>, books: map<Key, Book>, pcs: seq<Pc>)

  /** How a Take or Peek ends: without contacting Redis, or with a flush whose jobs come in `order`. */
  datatype Ending = Quiet | Flush(order: seq<Key>, now: int, probe: bool)

  datatype Action =
    | Spawn(pc: Pc)
    | TakeBegin(t: nat, ending: Ending)
    | TakeResume(t: nat, ending: Ending)
    | TakeFinish(t: nat, ending: Ending)
    | PeekBegin(t: nat, ending: Ending)
    | PeekResume(t: nat, ending: Ending)
    | PeekFinish(t: nat, ending: Ending)
    | FlushBegin(t: nat, order: seq<Key>, now: int)
    | Get(t: nat)
    | GetFails(t: nat)
    | Apply(t: nat)
    | Settle(t: nat, ok: bool)
    | ProbeEnds(t: nat)
    | Elsewhere(key: Key, n: nat)
    | Expiry(key: Key)

  const INIT := System(map[], [], map[], [])

  // ---------------------------------------------------------------- parts of a section

  function BookOf(s: System, k: Key): Book { if k in s.books then s.books[k] else EMPTY_BOOK }

  function Posted(s: System, k: Key, b: Book): System { s.(books := s.books[k := b]) }

  function Goto(s: System, t: nat, pc: Pc): System
    requires t < |s.pcs|
  {
    s.(pcs := s.pcs[t := pc])
  }

  predicate Live(s: System, k: Key) { k in s.windows && s.windows[k] < |s.heap| }

  function At(s: System, k: Key): Window
    requires Live(s, k)
  {
    s.heap[s.windows[k]].w
  }

  function Written(s: System, wid: nat, w: Window): System
    requires wid < |s.heap|
  {
    s.(heap := s.heap[wid := s.heap[wid].(w := w)])
  }

  /** applyGetLocked */
  function Stored(s: System, k: Key, known: int, e: int): System
    requires k in s.windows ==> Live(s, k)
  {
    if k in s.windows then Written(s, s.windows[k], Refreshed(At(s, k), known, e))
    else s.(windows := s.windows[k := |s.heap|], heap := s.heap + [Cell(k, Fresh(known, e))])
  }

  /** The hit itself, on the window the Take holds. */
  function Hit(s: System, k: Key, wid: nat): System
    requires wid < |s.heap|
  {
    var b := BookOf(s, k);
    var here := k in s.windows && s.windows[k] == wid;
    Posted(Written(s, wid, Counted(s.heap[wid].w)), k,
           b.(tally := b.tally.(hits := b.tally.hits + 1, lost := if here then b.tally.lost else b.tally.lost + 1)))
  }

  /** `order` lists every key with an unflushed delta that no other flush has in flight, once. */
  ghost predicate Picks(s: System, order: seq<Key>) {
    && Distinct(order)
    && (forall k :: k in s.windows ==> Live(s, k))
    && (forall k :: k in order <==> k in s.windows && Unflushed(At(s, k)))
  }

  ghost function MarkAll(s: System, t: nat, order: seq<Key>): System {
    s.(heap := seq(|s.heap|, i requires 0 <= i < |s.heap| =>
                 var c := s.heap[i];
                 if c.key in order && c.key in s.windows && s.windows[c.key] == i then c.(w := Marked(c.w)) else c),
       books := map k | k in s.books.Keys + (set x | x in order) ::
                  if k in order then BookOf(s, k).(flusher := Some(t)) else BookOf(s, k))
  }

  function JobsFor(s: System, order: seq<Key>): (jobs: seq<Job>)
    requires forall k :: k in order ==> Live(s, k)
    ensures |jobs| == |order|
    ensures forall i :: 0 <= i < |jobs| ==> jobs[i] == Job(order[i], At(s, order[i]).localDelta, At(s, order[i]).expireAt)
  {
    seq(|order|, i requires 0 <= i < |order| =>
      assert order[i] in order; Job(order[i], At(s, order[i]).localDelta, At(s, order[i]).expireAt))
  }

  function Swept(s: System, now: int): System
    requires forall k :: k in s.windows ==> Live(s, k)
  {
    s.(windows := map k | k in s.windows && !Stale(At(s, k), now) :: s.windows[k])
  }

  /** The next EVAL, or the sweep that ends the flush. */
  function NextJob(s: System, t: nat, jobs: seq<Job>, now: int, probe: bool): System
    requires t < |s.pcs| && forall k :: k in s.windows ==> Live(s, k)
  {
    if jobs == [] then Goto(Swept(s, now), t, if probe then Probing else Done)
    else Goto(s, t, Evaluating(jobs, now, probe, 0, 0))
  }

  /** What an EVAL's outcome does to the buffer. The window is looked up again. */
  function Settled(s: System, job: Job, ok: bool, applied: int, reply: int): System {
    var b := BookOf(s, job.key);
    var over := if ok then applied - job.delta else applied;
    var posted := Posted(s, job.key, b.(inflight := 0, tally := b.tally.(dup := b.tally.dup + over), flusher := None));
    if !Live(s, job.key) then posted
    else if ok then Written(posted, s.windows[job.key], Acked(At(s, job.key), job.delta, reply))
    else Written(posted, s.windows[job.key], Unmarked(At(s, job.key)))
  }

  // ---------------------------------------------------------------- steps

  /** flushPendingLocked up to its first EVAL. */
  ghost predicate StartsFlush(s: System, t: nat, order: seq<Key>, now: int, probe: bool, r: System)
    requires t < |s.pcs|
  {
    Picks(s, order) && (forall k :: k in s.windows ==> Live(MarkAll(s, t, order), k))
    && r == NextJob(MarkAll(s, t, order), t, JobsFor(s, order), now, probe)
  }

  /** bufferedOutageErrorLocked up to its first Redis command. */
  ghost predicate Ends(s: System, t: nat, ending: Ending, r: System)
    requires t < |s.pcs|
  {
    match ending
    case Quiet => r == Goto(s, t, Done)
    case Flush(order, now, probe) => StartsFlush(s, t, order, now, probe, r)
  }

  /** takeBuffered once it holds the current window. */
  ghost predicate TakesFrom(s: System, t: nat, cur: Key, prev: Key, e: int, wid: nat, ending: Ending, r: System)
    requires t < |s.pcs| && wid < |s.heap|
  {
    if prev in s.windows then Ends(Hit(s, cur, wid), t, ending, r)
    else r == Goto(s, t, TakePrevGet(cur, prev, e, wid))
  }

  ghost predicate PeeksFrom(s: System, t: nat, prev: Key, ending: Ending, r: System)
    requires t < |s.pcs|
  {
    if prev in s.windows then Ends(s, t, ending, r) else r == Goto(s, t, PeekPrevGet(prev))
  }

  ghost predicate Take(s: System, t: nat, ending: Ending, r: System)
    requires t < |s.pcs| && s.pcs[t].TakeCall?
  {
    var TakeCall(cur, prev, e) := s.pcs[t];
    if Live(s, cur) then
      var s1 := Written(s, s.windows[cur], Raised(At(s, cur), e));
      if At(s, cur).localDelta != 0 then TakesFrom(s1, t, cur, prev, e, s.windows[cur], ending, r)
      else r == Goto(s1, t, TakeGet(cur, prev, e))
    else r == Goto(s, t, TakeGet(cur, prev, e))
  }

  ghost predicate Peek(s: System, t: nat, ending: Ending, r: System)
    requires t < |s.pcs| && s.pcs[t].PeekCall?
  {
    var PeekCall(cur, prev, e) := s.pcs[t];
    if Live(s, cur) then PeeksFrom(Written(s, s.windows[cur], Raised(At(s, cur), e)), t, prev, ending, r)
    else r == Goto(s, t, PeekGet(cur, prev, e))
  }

  /** A GET reads the count Redis holds at that moment. */
  function GetStep(s: System, t: nat): System
    requires t < |s.pcs|
  {
    match s.pcs[t]
    case TakeGet(cur, prev, e) => Goto(s, t, TakeGot(cur, prev, e, BookOf(s, cur).redis))
    case TakePrevGet(cur, prev, e, wid) => Goto(s, t, TakePrevGot(cur, prev, e, wid, BookOf(s, prev).redis))
    case PeekGet(cur, prev, e) => Goto(s, t, PeekGot(cur, prev, e, BookOf(s, cur).redis))
    case PeekPrevGet(prev) => Goto(s, t, PeekPrevGot(prev, BookOf(s, prev).redis))
    case _ => s
  }

  /** The flush script runs in Redis. A retried command may run it again. */
  function ApplyStep(s: System, t: nat): System
    requires t < |s.pcs| && s.pcs[t].Evaluating? && s.pcs[t].jobs != []
  {
    var pc := s.pcs[t];
    var b := BookOf(s, pc.jobs[0].key);
    Goto(Posted(s, pc.jobs[0].key, b.(redis := b.redis + pc.jobs[0].delta, inflight := b.inflight + pc.jobs[0].delta)),
         t, pc.(applied := pc.applied + pc.jobs[0].delta, reply := b.redis + pc.jobs[0].delta))
  }

  ghost predicate Settles(s: System, t: nat, ok: bool, r: System)
    requires t < |s.pcs| && s.pcs[t].Evaluating? && s.pcs[t].jobs != []
  {
    var Evaluating(jobs, now, probe, applied, reply) := s.pcs[t];
    var s1 := Settled(s, jobs[0], ok, applied, reply);
    && (ok ==> applied > 0)
    && (forall k :: k in s1.windows ==> Live(s1, k))
    && r == NextJob(s1, t, jobs[1..], now, probe)
  }

  predicate IsCall(pc: Pc) { pc.TakeCall? || pc.PeekCall? || pc.FlushCall? }

  ghost predicate Step(s: System, a: Action, r: System) {
    match a
    case Spawn(pc) => IsCall(pc) && r == s.(pcs := s.pcs + [pc])
    case TakeBegin(t, ending) => t < |s.pcs| && s.pcs[t].TakeCall? && Take(s, t, ending, r)
    case TakeResume(t, ending) =>
      && t < |s.pcs| && s.pcs[t].TakeGot? && (s.pcs[t].cur in s.windows ==> Live(s, s.pcs[t].cur))
      && var s1 := Stored(s, s.pcs[t].cur, s.pcs[t].known, s.pcs[t].e);
         TakesFrom(s1, t, s.pcs[t].cur, s.pcs[t].prev, s.pcs[t].e, s1.windows[s.pcs[t].cur], ending, r)
    case TakeFinish(t, ending) =>
      && t < |s.pcs| && s.pcs[t].TakePrevGot? && (s.pcs[t].prev in s.windows ==> Live(s, s.pcs[t].prev))
      && var s1 := Stored(s, s.pcs[t].prev, s.pcs[t].known, 0);
         s.pcs[t].wid < |s1.heap| && Ends(Hit(s1, s.pcs[t].cur, s.pcs[t].wid), t, ending, r)
    case PeekBegin(t, ending) => t < |s.pcs| && s.pcs[t].PeekCall? && Peek(s, t, ending, r)
    case PeekResume(t, ending) =>
      && t < |s.pcs| && s.pcs[t].PeekGot? && (s.pcs[t].cur in s.windows ==> Live(s, s.pcs[t].cur))
      && PeeksFrom(Stored(s, s.pcs[t].cur, s.pcs[t].known, s.pcs[t].e), t, s.pcs[t].prev, ending, r)
    case PeekFinish(t, ending) =>
      && t < |s.pcs| && s.pcs[t].PeekPrevGot? && (s.pcs[t].prev in s.windows ==> Live(s, s.pcs[t].prev))
      && Ends(Stored(s, s.pcs[t].prev, s.pcs[t].known, 0), t, ending, r)
    case FlushBegin(t, order, now) => t < |s.pcs| && s.pcs[t].FlushCall? && StartsFlush(s, t, order, now, false, r)
    case Get(t) => t < |s.pcs| && (s.pcs[t].TakeGet? || s.pcs[t].TakePrevGet? || s.pcs[t].PeekGet? || s.pcs[t].PeekPrevGet?)
                   && r == GetStep(s, t)
    case GetFails(t) => t < |s.pcs| && (s.pcs[t].TakeGet? || s.pcs[t].TakePrevGet? || s.pcs[t].PeekGet? || s.pcs[t].PeekPrevGet?)
                        && r == Goto(s, t, Done)
    case Apply(t) => t < |s.pcs| && s.pcs[t].Evaluating? && s.pcs[t].jobs != [] && r == ApplyStep(s, t)
    case Settle(t, ok) => t < |s.pcs| && s.pcs[t].Evaluating? && s.pcs[t].jobs != [] && Settles(s, t, ok, r)
    case ProbeEnds(t) => t < |s.pcs| && s.pcs[t].Probing? && r == Goto(s, t, Done)
    case Elsewhere(key, n) => r == Posted(s, key, GivenMore(BookOf(s, key), n))
    case Expiry(key) =>
      r == Posted(s, key, BookOf(s, key).(redis := 0, expired := BookOf(s, key).expired + BookOf(s, key).redis))
  }

  ghost predicate Run(run: seq<System>, acts: seq<Action>) {
    && |run| == |acts| + 1 && run[0] == INIT
    && forall i :: 0 <= i < |acts| ==> Step(run[i], acts[i], run[i + 1])
  }
}
