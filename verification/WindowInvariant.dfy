/** The accounting invariant of the write-back buffer, and that every step keeps it. */
module WindowInvariant {
  import opened Basics
  import opened WindowSystem

  /** What the buffer still holds for a key. */
  function Local(s: System, k: Key): int { if Live(s, k) then At(s, k).localDelta else 0 }

  predicate WindowOK(w: Window) { 0 <= w.flushDelta <= w.localDelta }

  /** No hit is forgotten and none is counted twice, when the buffer still holds `local`. */
  predicate Balances(b: Book, local: int) {
    b.redis + b.expired + local + b.tally.lost == b.tally.hits + b.inflight + b.tally.dup + b.tally.ext
  }

  predicate Signs(b: Book) {
    b.redis >= 0 && b.expired >= 0 && b.tally.hits >= 0 && b.tally.lost >= 0 && b.tally.ext >= 0 && b.tally.dup >= 0 && b.inflight >= 0
  }

  /** All that Redis was ever told, save what the buffer still counts as its own. */
  function Settlement(b: Book): int { b.redis + b.expired - b.inflight }

  /** The window knows no more than Redis was told, and is marked exactly while in flight. */
  predicate Fits(b: Book, w: Window) {
    w.redisKnown <= Settlement(b) && (b.flusher.None? ==> w.flushDelta == 0) && (b.flusher.Some? ==> w.flushDelta > 0)
  }

  predicate BookOK(b: Book, local: int) {
    var ok := Balances(b, local) && Signs(b) && (b.flusher.None? ==> b.inflight == 0);
    ok
  }

  predicate KeyOK(s: System, k: Key) {
    && BookOK(BookOf(s, k), Local(s, k))
    && (k in s.windows ==> Live(s, k) && s.heap[s.windows[k]].key == k && Fits(BookOf(s, k), At(s, k)))
    && (BookOf(s, k).flusher.Some? ==> k in s.windows)
  }

  /** The thread has the job's delta in flight, and no one else has. */
  predicate JobOK(s: System, t: nat, job: Job) {
    && BookOf(s, job.key).flusher == Some(t)
    && Live(s, job.key) && At(s, job.key).flushDelta == job.delta > 0
  }

  ghost predicate JobsOK(s: System, t: nat, jobs: seq<Job>) {
    && (forall i :: 0 <= i < |jobs| ==> JobOK(s, t, jobs[i]))
    && (forall i, j :: 0 <= i < j < |jobs| ==> jobs[i].key != jobs[j].key)
    && (forall i :: 0 < i < |jobs| ==> BookOf(s, jobs[i].key).inflight == 0)
  }

  predicate Seen(s: System, k: Key, known: int) { known <= BookOf(s, k).redis + BookOf(s, k).expired }

  predicate Holds(s: System, k: Key, e: int, wid: nat) {
    wid < |s.heap| && s.heap[wid].key == k && s.heap[wid].w.expireAt >= e
  }

  ghost predicate PcOK(s: System, t: nat, pc: Pc) {
    match pc
    case TakeGot(cur, _, _, known) => Seen(s, cur, known)
    case TakePrevGet(cur, _, e, wid) => Holds(s, cur, e, wid)
    case TakePrevGot(cur, prev, e, wid, known) => Holds(s, cur, e, wid) && Seen(s, prev, known)
    case PeekGot(cur, _, _, known) => Seen(s, cur, known)
    case PeekPrevGot(prev, known) => Seen(s, prev, known)
    case Evaluating(jobs, _, _, applied, reply) =>
      && jobs != [] && JobsOK(s, t, jobs) && BookOf(s, jobs[0].key).inflight == applied
      && (applied == 0 || applied >= jobs[0].delta) && Seen(s, jobs[0].key, reply)
    case _ => true
  }

  /** A key in flight is in the job list of its flusher. */
  ghost predicate FlusherOK(s: System, k: Key) {
    var f := BookOf(s, k).flusher;
    f.Some? ==> f.value < |s.pcs| && s.pcs[f.value].Evaluating? && exists j :: j in s.pcs[f.value].jobs && j.key == k
  }

  ghost predicate HeapOK(s: System) {
    && (forall i :: 0 <= i < |s.heap| ==> WindowOK(s.heap[i].w))
    && (forall k :: KeyOK(s, k))
  }

  ghost predicate Inv(s: System) {
    && HeapOK(s)
    && (forall t :: 0 <= t < |s.pcs| ==> PcOK(s, t, s.pcs[t]))
    && (forall k :: FlusherOK(s, k))
  }

  /** The invariant in the middle of thread t's section. */
  ghost predicate Within(s: System, t: nat) {
    && t < |s.pcs| && HeapOK(s)
    && (forall u :: 0 <= u < |s.pcs| && u != t ==> PcOK(s, u, s.pcs[u]))
    && (forall k :: BookOf(s, k).flusher != Some(t) ==> FlusherOK(s, k))
  }

  lemma InvInit()
    ensures Inv(INIT)
  {
  }

  // ---------------------------------------------------------------- leaving a section

  lemma Leaves(s: System, t: nat, pc: Pc)
    requires Within(s, t) && PcOK(s, t, pc)
    requires forall k :: BookOf(s, k).flusher == Some(t) ==> pc.Evaluating? && exists j :: j in pc.jobs && j.key == k
    ensures Inv(Goto(s, t, pc))
  {
    hide KeyOK, PcOK, FlusherOK, WindowOK;
    var r := Goto(s, t, pc);
    forall k ensures KeyOK(r, k) { SameKey(s, r, k); }
    forall k ensures FlusherOK(r, k) { FlusherStays(s, t, pc, k); }
    forall u | 0 <= u < |r.pcs| ensures PcOK(r, u, r.pcs[u]) { SamePc(s, r, u, r.pcs[u]); }
  }

  lemma SameKey(s: System, r: System, k: Key)
    requires r == s.(pcs := r.pcs) && KeyOK(s, k)
    ensures KeyOK(r, k)
  {
    assert r.windows == s.windows && r.heap == s.heap && r.books == s.books;
    assert BookOf(r, k) == BookOf(s, k);
    assert Live(r, k) == Live(s, k);
  }

  lemma FlusherStays(s: System, t: nat, pc: Pc, k: Key)
    requires t < |s.pcs| && (BookOf(s, k).flusher != Some(t) ==> FlusherOK(s, k))
    requires BookOf(s, k).flusher == Some(t) ==> pc.Evaluating? && exists j :: j in pc.jobs && j.key == k
    ensures FlusherOK(Goto(s, t, pc), k)
  {
  }

  /** A thread's part depends on the store only. */
  lemma SamePc(s: System, r: System, u: nat, pc: Pc)
    requires r == s.(pcs := r.pcs) && PcOK(s, u, pc)
    ensures PcOK(r, u, pc)
  {
  }

  /** Outside a flush a thread has nothing in flight. */
  lemma Idle(s: System, t: nat)
    requires Inv(s) && t < |s.pcs| && !s.pcs[t].Evaluating?
    ensures Within(s, t) && forall k :: BookOf(s, k).flusher != Some(t)
  {
    forall k ensures BookOf(s, k).flusher != Some(t) { assert FlusherOK(s, k); }
  }

  // ---------------------------------------------------------------- writes to one window

  /** Every thread's part survives a change that loses no window, keeps in-flight marks and lets
      Redis totals and expiry times only grow. */
  ghost predicate Forward(s: System, r: System) {
    && r.pcs == s.pcs && |s.heap| <= |r.heap|
    && (forall i :: 0 <= i < |s.heap| ==> s.heap[i].key == r.heap[i].key && s.heap[i].w.expireAt <= r.heap[i].w.expireAt)
    && (forall k :: BookOf(s, k).redis + BookOf(s, k).expired <= BookOf(r, k).redis + BookOf(r, k).expired)
  }

  /** Thread u's in-flight marks are the same in both. */
  ghost predicate MarksKept(s: System, r: System, u: nat) {
    forall k :: BookOf(s, k).flusher == Some(u) ==>
      && BookOf(r, k).flusher == Some(u) && BookOf(r, k).inflight == BookOf(s, k).inflight
      && (Live(s, k) ==> Live(r, k) && At(r, k).flushDelta == At(s, k).flushDelta)
  }

  lemma PcKept(s: System, r: System, u: nat, pc: Pc)
    requires PcOK(s, u, pc) && Forward(s, r) && MarksKept(s, r, u)
    ensures PcOK(r, u, pc)
  {
    if pc.Evaluating? {
      forall i | 0 <= i < |pc.jobs| ensures JobOK(r, u, pc.jobs[i]) { assert JobOK(s, u, pc.jobs[i]); }
      assert JobOK(s, u, pc.jobs[0]);
    }
  }

  lemma WithinKept(s: System, r: System, t: nat)
    requires Within(s, t) && Forward(s, r) && HeapOK(r)
    requires forall u :: u != t ==> MarksKept(s, r, u)
    requires forall k :: BookOf(r, k).flusher == BookOf(s, k).flusher || BookOf(s, k).flusher == Some(t) || BookOf(r, k).flusher == Some(t)
    requires forall k :: BookOf(s, k).flusher == Some(t) && BookOf(r, k).flusher != Some(t) ==> BookOf(r, k).flusher.None?
    ensures Within(r, t)
  {
    forall u | 0 <= u < |r.pcs| && u != t ensures PcOK(r, u, r.pcs[u]) { PcKept(s, r, u, s.pcs[u]); }
    forall k | BookOf(r, k).flusher != Some(t) ensures FlusherOK(r, k) { assert BookOf(s, k).flusher != Some(t) ==> FlusherOK(s, k); }
  }

  lemma RaisedKeeps(s: System, t: nat, k: Key, e: int)
    requires Within(s, t) && k in s.windows
    ensures Live(s, k) && Within(Written(s, s.windows[k], Raised(At(s, k), e)), t)
  {
    assert KeyOK(s, k);
    WrittenKeeps(s, t, k, Raised(At(s, k), e));
  }

  /** Overwriting a mapped window's count, its in-flight mark untouched. */
  lemma WrittenKeeps(s: System, t: nat, k: Key, w: Window)
    requires Within(s, t) && Live(s, k)
    requires w.localDelta == At(s, k).localDelta && w.flushDelta == At(s, k).flushDelta && w.expireAt >= At(s, k).expireAt
    requires w.redisKnown <= Settlement(BookOf(s, k))
    ensures Within(Written(s, s.windows[k], w), t)
  {
    hide PcOK, FlusherOK, KeyOK;
    var r := Written(s, s.windows[k], w);
    forall x ensures KeyOK(r, x) { assert KeyOK(s, x); KeyWritten(s, k, w, x); }
    forall u ensures MarksKept(s, r, u) { WrittenMarks(s, k, w, u); }
    WithinKept(s, r, t);
  }

  lemma KeyWritten(s: System, k: Key, w: Window, x: Key)
    requires KeyOK(s, x) && KeyOK(s, k) && Live(s, k)
    requires w.localDelta == At(s, k).localDelta && w.flushDelta == At(s, k).flushDelta && w.redisKnown <= Settlement(BookOf(s, k))
    ensures KeyOK(Written(s, s.windows[k], w), x)
  {
    hide BookOK;
    var r := Written(s, s.windows[k], w);
    assert BookOf(r, x) == BookOf(s, x) && Live(r, x) == Live(s, x);
    assert x != k && Live(s, x) ==> s.windows[x] != s.windows[k];
    assert Live(s, x) ==> At(r, x) == if x == k then w else At(s, x);
    assert Local(r, x) == Local(s, x);
  }

  lemma WrittenMarks(s: System, k: Key, w: Window, u: nat)
    requires Live(s, k) && w.flushDelta == At(s, k).flushDelta
    ensures MarksKept(s, Written(s, s.windows[k], w), u)
  {
  }

  lemma StoredKeeps(s: System, t: nat, k: Key, known: int, e: int)
    requires Within(s, t) && Seen(s, k, known)
    ensures k in s.windows ==> Live(s, k)
    ensures var r := Stored(s, k, known, e); Within(r, t) && k in r.windows && Holds(r, k, e, r.windows[k])
  {
    hide PcOK, FlusherOK, Balances, Signs;
    assert KeyOK(s, k);
    if k in s.windows {
      assert WindowOK(At(s, k));
      WrittenKeeps(s, t, k, Refreshed(At(s, k), known, e));
    } else {
      FirstSeen(s, t, k, known, e);
    }
  }

  lemma StoredHolds(s: System, k: Key, known: int, cur: Key, e: int, wid: nat)
    requires (k in s.windows ==> Live(s, k)) && Holds(s, cur, e, wid)
    ensures Holds(Stored(s, k, known, 0), cur, e, wid)
  {
  }

  lemma FirstSeen(s: System, t: nat, k: Key, known: int, e: int)
    requires Within(s, t) && Seen(s, k, known) && k !in s.windows
    ensures Within(Stored(s, k, known, e), t)
  {
    hide PcOK, FlusherOK, KeyOK;
    var r := Stored(s, k, known, e);
    forall x ensures KeyOK(r, x) { assert KeyOK(s, x); KeySeen(s, k, known, e, x); }
    forall u ensures MarksKept(s, r, u) { SeenMarks(s, k, known, e, u); }
    WithinKept(s, r, t);
  }

  lemma KeySeen(s: System, k: Key, known: int, e: int, x: Key)
    requires KeyOK(s, x) && Seen(s, k, known) && k !in s.windows
    ensures KeyOK(Stored(s, k, known, e), x)
  {
    hide Balances, Signs;
    var r := Stored(s, k, known, e);
    assert BookOf(r, x) == BookOf(s, x) && (x in r.windows <==> x in s.windows || x == k);
    assert Live(r, x) ==> At(r, x) == if x == k then Fresh(known, e) else At(s, x);
    assert Local(r, x) == Local(s, x);
  }

  lemma SeenMarks(s: System, k: Key, known: int, e: int, u: nat)
    requires k !in s.windows
    ensures MarksKept(s, Stored(s, k, known, e), u)
  {
  }

  lemma HitKeeps(s: System, t: nat, k: Key, wid: nat)
    requires Within(s, t) && wid < |s.heap| && s.heap[wid].key == k
    ensures Within(Hit(s, k, wid), t)
  {
    hide PcOK, FlusherOK, KeyOK;
    var r := Hit(s, k, wid);
    forall x ensures KeyOK(r, x) { assert KeyOK(s, x); KeyHit(s, k, wid, x); }
    forall u ensures MarksKept(s, r, u) { HitMarks(s, k, wid, u); }
    WithinKept(s, r, t);
  }

  lemma HitBook(b: Book, local: int, here: bool)
    requires BookOK(b, local)
    ensures BookOK(b.(tally := b.tally.(hits := b.tally.hits + 1, lost := if here then b.tally.lost else b.tally.lost + 1)), if here then local + 1 else local)
  {
  }

  lemma KeyHit(s: System, k: Key, wid: nat, x: Key)
    requires KeyOK(s, x) && wid < |s.heap| && s.heap[wid].key == k
    ensures KeyOK(Hit(s, k, wid), x)
  {
    if x == k { HitHere(s, k, wid); } else { HitElsewhere(s, k, wid, x); }
  }

  lemma HitFacts(s: System, k: Key, wid: nat)
    requires KeyOK(s, k) && wid < |s.heap| && s.heap[wid].key == k
    ensures var r, b := Hit(s, k, wid), BookOf(s, k);
            var here := k in s.windows && s.windows[k] == wid;
            && Live(r, k) == Live(s, k) && r.windows == s.windows && |r.heap| == |s.heap|
            && (Live(s, k) ==> r.heap[r.windows[k]].key == k && At(r, k) == if here then Counted(At(s, k)) else At(s, k))
            && BookOf(r, k) == b.(tally := b.tally.(hits := b.tally.hits + 1, lost := if here then b.tally.lost else b.tally.lost + 1))
  {
    hide BookOK, Fits;
  }

  lemma HitHere(s: System, k: Key, wid: nat)
    requires KeyOK(s, k) && wid < |s.heap| && s.heap[wid].key == k
    ensures KeyOK(Hit(s, k, wid), k)
  {
    hide BookOK, Hit;
    HitFacts(s, k, wid);
    HitBook(BookOf(s, k), Local(s, k), k in s.windows && s.windows[k] == wid);
  }

  lemma HitElsewhere(s: System, k: Key, wid: nat, x: Key)
    requires KeyOK(s, x) && wid < |s.heap| && s.heap[wid].key == k && x != k
    ensures KeyOK(Hit(s, k, wid), x)
  {
    hide BookOK, Fits;
    var r := Hit(s, k, wid);
    assert BookOf(r, x) == BookOf(s, x) && Live(r, x) == Live(s, x);
    assert Live(s, x) ==> At(r, x) == At(s, x);
    assert Local(r, x) == Local(s, x);
  }

  lemma HitMarks(s: System, k: Key, wid: nat, u: nat)
    requires wid < |s.heap|
    ensures MarksKept(s, Hit(s, k, wid), u)
  {
  }
}
