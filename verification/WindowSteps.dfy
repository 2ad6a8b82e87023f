/** Every action of the write-back buffer keeps the accounting invariant. */
module WindowSteps {
  import opened Basics
  import opened WindowSystem
  import opened WindowInvariant

  /** Exactly the jobs' keys are in flight for thread t. */
  ghost predicate InFlight(s: System, t: nat, jobs: seq<Job>) {
    && JobsOK(s, t, jobs)
    && (forall k :: BookOf(s, k).flusher == Some(t) ==> exists j :: j in jobs && j.key == k)
  }

  // ---------------------------------------------------------------- marking

  lemma MarkedCell(s: System, t: nat, order: seq<Key>, k: Key)
    requires KeyOK(s, k) && (k in order ==> k in s.windows)
    ensures var r := MarkAll(s, t, order);
            && BookOf(r, k) == (if k in order then BookOf(s, k).(flusher := Some(t)) else BookOf(s, k))
            && Live(r, k) == Live(s, k)
            && (Live(s, k) ==> At(r, k) == if k in order then Marked(At(s, k)) else At(s, k))
  {
  }

  lemma MarkBook(b: Book, local: int, t: nat)
    requires BookOK(b, local)
    ensures BookOK(b.(flusher := Some(t)), local) && Settlement(b.(flusher := Some(t))) == Settlement(b)
  {
  }

  lemma KeyMarked(s: System, t: nat, order: seq<Key>, k: Key)
    requires KeyOK(s, k) && (k in order ==> k in s.windows && Unflushed(At(s, k)))
    ensures KeyOK(MarkAll(s, t, order), k)
  {
    hide MarkAll, BookOK;
    var r := MarkAll(s, t, order);
    MarkedCell(s, t, order, k);
    SameShape(s, t, order);
    assert Local(r, k) == Local(s, k);
    MarkBook(BookOf(s, k), Local(s, k), t);
  }

  lemma SameShape(s: System, t: nat, order: seq<Key>)
    ensures var r := MarkAll(s, t, order);
            && r.windows == s.windows && |r.heap| == |s.heap| && r.pcs == s.pcs
            && forall i :: 0 <= i < |s.heap| ==>
                 r.heap[i].key == s.heap[i].key && r.heap[i].w.expireAt == s.heap[i].w.expireAt
  {
  }

  lemma MarkedWindows(s: System, t: nat, order: seq<Key>)
    requires forall i :: 0 <= i < |s.heap| ==> WindowOK(s.heap[i].w)
    ensures forall i :: 0 <= i < |s.heap| ==> WindowOK(MarkAll(s, t, order).heap[i].w)
  {
  }

  lemma MarkedMarks(s: System, t: nat, order: seq<Key>, u: nat)
    requires u != t && (forall k :: KeyOK(s, k)) && Picks(s, order)
    ensures MarksKept(s, MarkAll(s, t, order), u)
  {
    hide MarkAll, Balances, Signs;
    var r := MarkAll(s, t, order);
    forall k | BookOf(s, k).flusher == Some(u)
      ensures BookOf(r, k) == BookOf(s, k) && (Live(s, k) ==> Live(r, k) && At(r, k) == At(s, k))
    {
      assert KeyOK(s, k);
      MarkedCell(s, t, order, k);
    }
  }

  lemma MarkAllWithin(s: System, t: nat, order: seq<Key>)
    requires Within(s, t) && Picks(s, order)
    ensures Within(MarkAll(s, t, order), t)
  {
    hide MarkAll, PcOK, FlusherOK, KeyOK, MarksKept;
    var r := MarkAll(s, t, order);
    SameShape(s, t, order);
    MarkedWindows(s, t, order);
    forall k ensures KeyOK(r, k) && (BookOf(r, k) == BookOf(s, k) || BookOf(r, k) == BookOf(s, k).(flusher := Some(t))) {
      KeyMarked(s, t, order, k);
      MarkedCell(s, t, order, k);
    }
    forall u | u != t ensures MarksKept(s, r, u) { MarkedMarks(s, t, order, u); }
    WithinKept(s, r, t);
  }

  lemma MarkAllInFlight(s: System, t: nat, order: seq<Key>)
    requires Within(s, t) && Picks(s, order) && forall k :: BookOf(s, k).flusher != Some(t)
    ensures InFlight(MarkAll(s, t, order), t, JobsFor(s, order))
  {
    hide MarkAll, PcOK, FlusherOK, Balances, Signs;
    var r := MarkAll(s, t, order);
    var jobs := JobsFor(s, order);
    forall i | 0 <= i < |jobs| ensures JobOK(r, t, jobs[i]) && BookOf(r, jobs[i].key).inflight == 0 {
      assert order[i] in order;
      assert KeyOK(s, order[i]);
      MarkedCell(s, t, order, order[i]);
    }
    forall k | BookOf(r, k).flusher == Some(t) ensures exists j :: j in jobs && j.key == k {
      assert KeyOK(s, k);
      MarkedCell(s, t, order, k);
      var i :| 0 <= i < |order| && order[i] == k;
      assert jobs[i] in jobs;
    }
  }

  // ---------------------------------------------------------------- sweeping

  lemma KeySwept(s: System, now: int, k: Key)
    requires KeyOK(s, k) && forall x :: x in s.windows ==> Live(s, x)
    ensures KeyOK(Swept(s, now), k)
  {
    hide BookOK;
    var r := Swept(s, now);
    assert BookOf(r, k) == BookOf(s, k);
    assert k in r.windows ==> k in s.windows && At(r, k) == At(s, k) && Live(r, k);
    assert Local(r, k) == Local(s, k);
  }

  lemma SweptMarks(s: System, now: int, u: nat)
    requires (forall k :: KeyOK(s, k)) && forall x :: x in s.windows ==> Live(s, x)
    ensures MarksKept(s, Swept(s, now), u)
  {
    hide Balances, Signs;
    forall k | BookOf(s, k).flusher == Some(u) && Live(s, k)
      ensures Live(Swept(s, now), k) && At(Swept(s, now), k) == At(s, k)
    {
      assert KeyOK(s, k);
    }
  }

  lemma SweptWithin(s: System, t: nat, now: int)
    requires Within(s, t)
    ensures forall x :: x in s.windows ==> Live(s, x)
    ensures Within(Swept(s, now), t)
  {
    hide PcOK, FlusherOK, Balances, Signs;
    forall x | x in s.windows ensures Live(s, x) { assert KeyOK(s, x); }
    var r := Swept(s, now);
    forall k ensures KeyOK(r, k) { assert KeyOK(s, k); KeySwept(s, now, k); }
    forall u ensures MarksKept(s, r, u) { SweptMarks(s, now, u); }
    WithinKept(s, r, t);
  }

  lemma NextJobKeeps(s: System, t: nat, jobs: seq<Job>, now: int, probe: bool)
    requires Within(s, t) && InFlight(s, t, jobs) && (jobs != [] ==> BookOf(s, jobs[0].key).inflight == 0)
    ensures forall x :: x in s.windows ==> Live(s, x)
    ensures Inv(NextJob(s, t, jobs, now, probe))
  {
    hide FlusherOK, KeyOK, JobOK;
    SweptWithin(s, t, now);
    if jobs == [] {
      assert forall k :: BookOf(Swept(s, now), k) == BookOf(s, k);
      Leaves(Swept(s, now), t, if probe then Probing else Done);
    } else {
      assert KeyOK(s, jobs[0].key);
      NotNegative(s, jobs[0].key);
      Leaves(s, t, Evaluating(jobs, now, probe, 0, 0));
    }
  }

  lemma NotNegative(s: System, k: Key)
    requires KeyOK(s, k)
    ensures Seen(s, k, 0)
  {
  }

  lemma StartsFlushKeeps(s: System, t: nat, order: seq<Key>, now: int, probe: bool, r: System)
    requires Within(s, t) && (forall k :: BookOf(s, k).flusher != Some(t)) && StartsFlush(s, t, order, now, probe, r)
    ensures Inv(r)
  {
    hide PcOK, FlusherOK, KeyOK, MarkAll, JobOK;
    MarkAllWithin(s, t, order);
    MarkAllInFlight(s, t, order);
    var jobs := JobsFor(s, order);
    if jobs != [] {
      assert KeyOK(s, order[0]);
      assert order[0] in order;
      UnflushedIdle(s, order[0]);
      MarkedCell(s, t, order, order[0]);
    }
    NextJobKeeps(MarkAll(s, t, order), t, jobs, now, probe);
  }

  lemma UnflushedIdle(s: System, k: Key)
    requires KeyOK(s, k) && k in s.windows && Unflushed(At(s, k))
    ensures BookOf(s, k).inflight == 0
  {
  }

  // ---------------------------------------------------------------- settling

  lemma SettleBook(b: Book, local: int, delta: int, ok: bool)
    requires BookOK(b, local) && (ok ==> b.inflight >= delta)
    ensures BookOK(b.(inflight := 0, tally := b.tally.(dup := b.tally.dup + if ok then b.inflight - delta else b.inflight), flusher := None),
                   if ok then local - delta else local)
    ensures b.inflight >= 0
  {
  }

  lemma KeySettled(s: System, t: nat, job: Job, ok: bool, applied: int, reply: int, k: Key)
    requires KeyOK(s, k) && KeyOK(s, job.key) && JobOK(s, t, job) && WindowOK(At(s, job.key))
    requires BookOf(s, job.key).inflight == applied && (ok ==> applied >= job.delta) && Seen(s, job.key, reply)
    ensures KeyOK(Settled(s, job, ok, applied, reply), k)
  {
    hide BookOK;
    var r := Settled(s, job, ok, applied, reply);
    var b := BookOf(s, job.key);
    if k == job.key { SettleBook(b, Local(s, k), job.delta, ok); }
    assert k != job.key ==> BookOf(r, k) == BookOf(s, k);
    assert Live(r, k) == Live(s, k);
    assert Live(s, k) && k != job.key ==> At(r, k) == At(s, k);
    assert Local(r, k) == if k == job.key && ok then Local(s, k) - job.delta else Local(s, k);
  }

  lemma SettledMarks(s: System, t: nat, job: Job, ok: bool, applied: int, reply: int, u: nat)
    requires u != t && JobOK(s, t, job) && forall k :: KeyOK(s, k)
    ensures MarksKept(s, Settled(s, job, ok, applied, reply), u)
  {
    hide Balances, Signs;
    var r := Settled(s, job, ok, applied, reply);
    forall k | BookOf(s, k).flusher == Some(u)
      ensures BookOf(r, k) == BookOf(s, k) && (Live(s, k) ==> Live(r, k) && At(r, k) == At(s, k))
    {
      assert KeyOK(s, k) && KeyOK(s, job.key);
    }
  }

  lemma SettledWithin(s: System, t: nat, job: Job, ok: bool, applied: int, reply: int)
    requires Within(s, t) && JobOK(s, t, job)
    requires BookOf(s, job.key).inflight == applied && (ok ==> applied >= job.delta) && Seen(s, job.key, reply)
    ensures Within(Settled(s, job, ok, applied, reply), t)
  {
    hide PcOK, FlusherOK, KeyOK, MarksKept;
    var r := Settled(s, job, ok, applied, reply);
    assert WindowOK(At(s, job.key)) && KeyOK(s, job.key);
    forall k ensures KeyOK(r, k) && (BookOf(r, k).flusher == BookOf(s, k).flusher || (k == job.key && BookOf(r, k).flusher.None?)) {
      assert KeyOK(s, k);
      KeySettled(s, t, job, ok, applied, reply, k);
    }
    forall u | u != t ensures MarksKept(s, r, u) { SettledMarks(s, t, job, ok, applied, reply, u); }
    WithinKept(s, r, t);
  }

  lemma SettledInFlight(s: System, t: nat, jobs: seq<Job>, ok: bool, applied: int, reply: int)
    requires InFlight(s, t, jobs) && jobs != [] && forall k :: KeyOK(s, k)
    ensures InFlight(Settled(s, jobs[0], ok, applied, reply), t, jobs[1..])
  {
    hide Balances, Signs;
    var r := Settled(s, jobs[0], ok, applied, reply);
    forall i | 0 < i < |jobs| ensures JobOK(r, t, jobs[i]) && BookOf(r, jobs[i].key) == BookOf(s, jobs[i].key) {
      assert JobOK(s, t, jobs[i]) && JobOK(s, t, jobs[0]) && KeyOK(s, jobs[i].key) && KeyOK(s, jobs[0].key);
    }
    forall k | BookOf(r, k).flusher == Some(t) ensures exists j :: j in jobs[1..] && j.key == k {
      assert BookOf(s, k).flusher == Some(t) && k != jobs[0].key;
      var j :| j in jobs && j.key == k;
      assert j in jobs[1..];
    }
  }

  /** Between two sections of a flush, thread t has exactly its jobs in flight. */
  lemma Resumes(s: System, t: nat)
    requires Inv(s) && t < |s.pcs| && s.pcs[t].Evaluating?
    ensures Within(s, t) && InFlight(s, t, s.pcs[t].jobs)
  {
    hide KeyOK, JobOK;
    forall k | BookOf(s, k).flusher == Some(t) ensures exists j :: j in s.pcs[t].jobs && j.key == k { assert FlusherOK(s, k); }
    assert PcOK(s, t, s.pcs[t]);
  }

  lemma SettlesKeeps(s: System, t: nat, ok: bool, r: System)
    requires Inv(s) && t < |s.pcs| && s.pcs[t].Evaluating? && s.pcs[t].jobs != [] && Settles(s, t, ok, r)
    ensures Inv(r)
  {
    hide KeyOK, JobOK, FlusherOK, Settled;
    Resumes(s, t);
    var pc := s.pcs[t];
    assert PcOK(s, t, pc) && JobOK(s, t, pc.jobs[0]);
    SettledWithin(s, t, pc.jobs[0], ok, pc.applied, pc.reply);
    SettledInFlight(s, t, pc.jobs, ok, pc.applied, pc.reply);
    if |pc.jobs| > 1 { OthersKept(s, pc.jobs[0], ok, pc.applied, pc.reply, pc.jobs[1].key); }
    NextJobKeeps(Settled(s, pc.jobs[0], ok, pc.applied, pc.reply), t, pc.jobs[1..], pc.now, pc.probe);
  }

  lemma OthersKept(s: System, job: Job, ok: bool, applied: int, reply: int, k: Key)
    requires k != job.key
    ensures BookOf(Settled(s, job, ok, applied, reply), k) == BookOf(s, k)
  {
  }

  // ---------------------------------------------------------------- Take and Peek

  ghost predicate NoneInFlight(s: System, t: nat) { forall k :: BookOf(s, k).flusher != Some(t) }

  lemma EndsKeeps(s: System, t: nat, ending: Ending, r: System)
    requires Within(s, t) && NoneInFlight(s, t) && Ends(s, t, ending, r)
    ensures Inv(r)
  {
    hide KeyOK, FlusherOK, StartsFlush;
    match ending
    case Quiet => Leaves(s, t, Done);
    case Flush(order, now, probe) => StartsFlushKeeps(s, t, order, now, probe, r);
  }

  lemma TakesFromKeeps(s: System, t: nat, cur: Key, prev: Key, e: int, wid: nat, ending: Ending, r: System)
    requires Within(s, t) && NoneInFlight(s, t) && Holds(s, cur, e, wid)
    requires TakesFrom(s, t, cur, prev, e, wid, ending, r)
    ensures Inv(r)
  {
    hide KeyOK, FlusherOK, Ends;
    if prev in s.windows {
      HitKeeps(s, t, cur, wid);
      assert forall k :: BookOf(Hit(s, cur, wid), k).flusher == BookOf(s, k).flusher;
      EndsKeeps(Hit(s, cur, wid), t, ending, r);
    } else {
      Leaves(s, t, TakePrevGet(cur, prev, e, wid));
    }
  }

  lemma PeeksFromKeeps(s: System, t: nat, prev: Key, ending: Ending, r: System)
    requires Within(s, t) && NoneInFlight(s, t) && PeeksFrom(s, t, prev, ending, r)
    ensures Inv(r)
  {
    hide KeyOK, FlusherOK, Ends;
    if prev in s.windows { EndsKeeps(s, t, ending, r); } else { Leaves(s, t, PeekPrevGet(prev)); }
  }

  lemma TakeKeeps(s: System, t: nat, ending: Ending, r: System)
    requires Inv(s) && t < |s.pcs| && s.pcs[t].TakeCall? && Take(s, t, ending, r)
    ensures Inv(r)
  {
    hide KeyOK, FlusherOK, TakesFrom;
    Idle(s, t);
    var TakeCall(cur, prev, e) := s.pcs[t];
    if Live(s, cur) {
      RaisedKeeps(s, t, cur, e);
      var s1 := Written(s, s.windows[cur], Raised(At(s, cur), e));
      assert s1.heap[s.windows[cur]].key == cur by { OwnCell(s, cur); }
      assert forall k :: BookOf(s1, k) == BookOf(s, k);
      if At(s, cur).localDelta != 0 { TakesFromKeeps(s1, t, cur, prev, e, s.windows[cur], ending, r); }
      else { Leaves(s1, t, TakeGet(cur, prev, e)); }
    } else {
      Leaves(s, t, TakeGet(cur, prev, e));
    }
  }

  lemma OwnCell(s: System, k: Key)
    requires HeapOK(s) && k in s.windows
    ensures Live(s, k) && s.heap[s.windows[k]].key == k
  {
    hide Balances, Signs;
    assert KeyOK(s, k);
  }

  lemma PeekKeeps(s: System, t: nat, ending: Ending, r: System)
    requires Inv(s) && t < |s.pcs| && s.pcs[t].PeekCall? && Peek(s, t, ending, r)
    ensures Inv(r)
  {
    hide KeyOK, FlusherOK, PeeksFrom;
    Idle(s, t);
    var PeekCall(cur, prev, e) := s.pcs[t];
    if Live(s, cur) {
      RaisedKeeps(s, t, cur, e);
      var s1 := Written(s, s.windows[cur], Raised(At(s, cur), e));
      assert forall k :: BookOf(s1, k) == BookOf(s, k);
      PeeksFromKeeps(s1, t, prev, ending, r);
    } else {
      Leaves(s, t, PeekGet(cur, prev, e));
    }
  }

  /** A stored GET result leaves the section's thread with nothing in flight. */
  lemma StoreKeeps(s: System, t: nat, k: Key, known: int, e: int)
    requires Inv(s) && t < |s.pcs| && !s.pcs[t].Evaluating? && Seen(s, k, known)
    ensures k in s.windows ==> Live(s, k)
    ensures var r := Stored(s, k, known, e);
            Within(r, t) && NoneInFlight(r, t) && k in r.windows && Holds(r, k, e, r.windows[k])
  {
    hide KeyOK, PcOK, FlusherOK;
    Idle(s, t);
    StoredKeeps(s, t, k, known, e);
    assert forall x :: BookOf(Stored(s, k, known, e), x) == BookOf(s, x);
  }

  lemma ResumeKeeps(s: System, a: Action, r: System)
    requires Inv(s) && Step(s, a, r) && (a.TakeResume? || a.TakeFinish? || a.PeekResume? || a.PeekFinish?)
    ensures Inv(r)
  {
    hide KeyOK, FlusherOK, TakesFrom, PeeksFrom, Ends, Within, HeapOK, NoneInFlight;
    var t := a.t;
    var pc := s.pcs[t];
    assert PcOK(s, t, pc);
    if a.TakeResume? {
      StoreKeeps(s, t, pc.cur, pc.known, pc.e);
      var s1 := Stored(s, pc.cur, pc.known, pc.e);
      TakesFromKeeps(s1, t, pc.cur, pc.prev, pc.e, s1.windows[pc.cur], a.ending, r);
    } else if a.PeekResume? {
      StoreKeeps(s, t, pc.cur, pc.known, pc.e);
      PeeksFromKeeps(Stored(s, pc.cur, pc.known, pc.e), t, pc.prev, a.ending, r);
    } else if a.PeekFinish? {
      StoreKeeps(s, t, pc.prev, pc.known, 0);
      EndsKeeps(Stored(s, pc.prev, pc.known, 0), t, a.ending, r);
    } else {
      FinishKeeps(s, t, a.ending, r);
    }
  }

  lemma FinishKeeps(s: System, t: nat, ending: Ending, r: System)
    requires Inv(s) && Step(s, TakeFinish(t, ending), r)
    ensures Inv(r)
  {
    hide KeyOK, FlusherOK, Ends, Within, HeapOK;
    var pc := s.pcs[t];
    assert PcOK(s, t, pc);
    StoreKeeps(s, t, pc.prev, pc.known, 0);
    var s1 := Stored(s, pc.prev, pc.known, 0);
    StoredHolds(s, pc.prev, pc.known, pc.cur, pc.e, pc.wid);
    HitKeeps(s1, t, pc.cur, pc.wid);
    assert forall k :: BookOf(Hit(s1, pc.cur, pc.wid), k).flusher == BookOf(s1, k).flusher;
    EndsKeeps(Hit(s1, pc.cur, pc.wid), t, ending, r);
  }

  // ---------------------------------------------------------------- Redis

  lemma GetKeeps(s: System, t: nat)
    requires Inv(s) && t < |s.pcs| && (s.pcs[t].TakeGet? || s.pcs[t].TakePrevGet? || s.pcs[t].PeekGet? || s.pcs[t].PeekPrevGet?)
    ensures Inv(GetStep(s, t)) && Inv(Goto(s, t, Done))
  {
    hide FlusherOK, Balances;
    Idle(s, t);
    var pc := s.pcs[t];
    assert PcOK(s, t, pc);
    var k := if pc.TakeGet? || pc.PeekGet? then pc.cur else pc.prev;
    assert KeyOK(s, k);
    assert Seen(s, k, BookOf(s, k).redis);
    Leaves(s, t, GetStep(s, t).pcs[t]);
    Leaves(s, t, Done);
  }

  /** A change to one key's ledger that leaves its flusher alone. */
  lemma PostedKeeps(s: System, k: Key, b: Book)
    requires Inv(s) && b.flusher == BookOf(s, k).flusher && b.inflight == BookOf(s, k).inflight
    requires BookOf(s, k).redis + BookOf(s, k).expired <= b.redis + b.expired
    requires KeyOK(Posted(s, k, b), k)
    ensures Inv(Posted(s, k, b))
  {
    hide KeyOK, PcOK;
    var r := Posted(s, k, b);
    forall x ensures KeyOK(r, x) { if x != k { OtherKey(s, k, b, x); } }
    forall u | 0 <= u < |r.pcs| ensures PcOK(r, u, r.pcs[u]) { PcKept(s, r, u, s.pcs[u]); }
    forall x ensures FlusherOK(r, x) { assert FlusherOK(s, x); }
  }

  lemma OtherKey(s: System, k: Key, b: Book, x: Key)
    requires KeyOK(s, x) && x != k
    ensures KeyOK(Posted(s, k, b), x)
  {
    hide BookOK;
    var r := Posted(s, k, b);
    assert BookOf(r, x) == BookOf(s, x) && Live(r, x) == Live(s, x) && Local(r, x) == Local(s, x);
  }

  lemma OutsideBook(b: Book, local: int, n: nat)
    requires BookOK(b, local)
    ensures BookOK(b.(redis := b.redis + n, tally := b.tally.(ext := b.tally.ext + n)), local)
    ensures BookOK(b.(redis := 0, expired := b.expired + b.redis), local)
  {
  }

  lemma KeyBook(s: System, k: Key)
    requires KeyOK(s, k)
    ensures BookOK(BookOf(s, k), Local(s, k))
  {
  }

  /** A new ledger for the key, with no less told to Redis beyond what is in flight. */
  lemma PostedKey(s: System, k: Key, b: Book)
    requires KeyOK(s, k) && BookOK(b, Local(s, k)) && b.flusher == BookOf(s, k).flusher && Settlement(b) >= Settlement(BookOf(s, k))
    ensures KeyOK(Posted(s, k, b), k)
  {
    hide BookOK;
    var r := Posted(s, k, b);
    assert BookOf(r, k) == b && Live(r, k) == Live(s, k) && Local(r, k) == Local(s, k);
  }

  lemma ElsewhereKeeps(s: System, k: Key, n: nat)
    requires Inv(s)
    ensures Inv(Posted(s, k, GivenMore(BookOf(s, k), n)))
  {
    hide PcOK, FlusherOK, BookOK, KeyOK;
    assert KeyOK(s, k);
    KeyBook(s, k);
    var b := GivenMore(BookOf(s, k), n);
    OutsideBook(BookOf(s, k), Local(s, k), n);
    PostedKey(s, k, b);
    PostedKeeps(s, k, b);
  }

  lemma ExpiryKeeps(s: System, k: Key)
    requires Inv(s)
    ensures Inv(Posted(s, k, BookOf(s, k).(redis := 0, expired := BookOf(s, k).expired + BookOf(s, k).redis)))
  {
    hide PcOK, FlusherOK, BookOK, KeyOK;
    assert KeyOK(s, k);
    KeyBook(s, k);
    var b := BookOf(s, k).(redis := 0, expired := BookOf(s, k).expired + BookOf(s, k).redis);
    OutsideBook(BookOf(s, k), Local(s, k), 0);
    PostedKey(s, k, b);
    PostedKeeps(s, k, b);
  }

  lemma KeyApplied(s: System, t: nat, job: Job, b: Book)
    requires KeyOK(s, job.key) && JobOK(s, t, job)
    requires b == BookOf(s, job.key).(redis := BookOf(s, job.key).redis + job.delta, inflight := BookOf(s, job.key).inflight + job.delta)
    ensures KeyOK(Posted(s, job.key, b), job.key)
  {
    PostedKey(s, job.key, b);
  }

  lemma NoneNegative(s: System, k: Key)
    requires KeyOK(s, k)
    ensures BookOf(s, k).expired >= 0 && BookOf(s, k).inflight >= 0
  {
  }

  lemma ApplyKeeps(s: System, t: nat)
    requires Inv(s) && t < |s.pcs| && s.pcs[t].Evaluating? && s.pcs[t].jobs != []
    ensures Inv(ApplyStep(s, t))
  {
    hide KeyOK, FlusherOK;
    Resumes(s, t);
    var pc := s.pcs[t];
    var job := pc.jobs[0];
    assert PcOK(s, t, pc) && JobOK(s, t, job) && KeyOK(s, job.key);
    var b := BookOf(s, job.key).(redis := BookOf(s, job.key).redis + job.delta, inflight := BookOf(s, job.key).inflight + job.delta);
    var r := Posted(s, job.key, b);
    KeyApplied(s, t, job, b);
    forall x ensures KeyOK(r, x) { if x != job.key { OtherKey(s, job.key, b, x); } }
    forall u | u != t ensures MarksKept(s, r, u) { }
    WithinKept(s, r, t);
    forall i | 0 <= i < |pc.jobs| ensures JobOK(r, t, pc.jobs[i]) { assert JobOK(s, t, pc.jobs[i]); }
    NoneNegative(s, job.key);
    Leaves(r, t, pc.(applied := pc.applied + job.delta, reply := b.redis));
  }

  // ---------------------------------------------------------------- all together

  lemma SpawnKeeps(s: System, pc: Pc)
    requires Inv(s) && IsCall(pc)
    ensures Inv(s.(pcs := s.pcs + [pc]))
  {
    hide KeyOK;
    var r := s.(pcs := s.pcs + [pc]);
    forall k ensures KeyOK(r, k) { SameKey(s, r, k); }
    forall k ensures FlusherOK(r, k) { assert FlusherOK(s, k); }
    forall u | 0 <= u < |r.pcs| ensures PcOK(r, u, r.pcs[u]) { if u < |s.pcs| { SamePc(s, r, u, s.pcs[u]); } }
  }

  lemma StepKeeps(s: System, a: Action, r: System)
    requires Inv(s) && Step(s, a, r)
    ensures Inv(r)
  {
    hide Inv, Take, Peek, StartsFlush, Settles, Stored, Hit, TakesFrom, PeeksFrom, Ends;
    match a
    case Spawn(pc) => SpawnKeeps(s, pc);
    case TakeBegin(t, ending) => TakeKeeps(s, t, ending, r);
    case PeekBegin(t, ending) => PeekKeeps(s, t, ending, r);
    case FlushBegin(t, order, now) => Idle(s, t); StartsFlushKeeps(s, t, order, now, false, r);
    case Get(t) => GetKeeps(s, t);
    case GetFails(t) => GetKeeps(s, t);
    case Apply(t) => ApplyKeeps(s, t);
    case Settle(t, ok) => SettlesKeeps(s, t, ok, r);
    case ProbeEnds(t) => Idle(s, t); Leaves(s, t, Done);
    case Elsewhere(key, n) => ElsewhereKeeps(s, key, n);
    case Expiry(key) => ExpiryKeeps(s, key);
    case _ => ResumeKeeps(s, a, r);
  }
}
