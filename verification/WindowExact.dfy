/** What a window knows, step by step and over whole runs: its count is the one Redis held when its GET or EVAL was
    answered, so the estimate is exact unless an EVAL overtook the GET. */
module WindowExact {
  import opened Basics
  import opened WindowSystem
  import opened WindowInvariant
  import opened WindowSteps
  import opened WindowRuns
  import opened WindowLoss

  // ---------------------------------------------------------------- the actions, by what they do to a key

  /** The GET answer for the key that the step brings into the buffer. */
  function Answer(s: System, a: Action, k: Key): Option<int> {
    match a
    case TakeResume(t, _) => if t < |s.pcs| && s.pcs[t].TakeGot? && s.pcs[t].cur == k then Some(s.pcs[t].known) else None
    case PeekResume(t, _) => if t < |s.pcs| && s.pcs[t].PeekGot? && s.pcs[t].cur == k then Some(s.pcs[t].known) else None
    case TakeFinish(t, _) => if t < |s.pcs| && s.pcs[t].TakePrevGot? && s.pcs[t].prev == k then Some(s.pcs[t].known) else None
    case PeekFinish(t, _) => if t < |s.pcs| && s.pcs[t].PeekPrevGot? && s.pcs[t].prev == k then Some(s.pcs[t].known) else None
    case _ => None
  }

  /** The answer is taken over: the key has no window yet, or one with nothing unflushed. */
  predicate TakesOver(s: System, a: Action, k: Key) {
    Answer(s, a, k).Some? && (k in s.windows ==> Live(s, k) && At(s, k).localDelta == 0)
  }

  /** The step runs the flush script for the key, settles it, settles it as a success. */
  predicate Sends(s: System, a: Action, k: Key) {
    a.Apply? && a.t < |s.pcs| && s.pcs[a.t].Evaluating? && s.pcs[a.t].jobs != [] && s.pcs[a.t].jobs[0].key == k
  }

  predicate Closes(s: System, a: Action, k: Key) {
    a.Settle? && a.t < |s.pcs| && s.pcs[a.t].Evaluating? && s.pcs[a.t].jobs != [] && s.pcs[a.t].jobs[0].key == k
  }

  predicate Acks(s: System, a: Action, k: Key) { Closes(s, a, k) && a.ok }

  /** The Take of the key is past its reads. */
  predicate Counts(s: System, a: Action, r: System, k: Key) {
    && (a.TakeBegin? || a.TakeResume? || a.TakeFinish?) && a.t < |s.pcs| && a.t < |r.pcs|
    && (s.pcs[a.t].TakeCall? || s.pcs[a.t].TakeGot? || s.pcs[a.t].TakePrevGot?) && s.pcs[a.t].cur == k
    && !r.pcs[a.t].TakeGet? && !r.pcs[a.t].TakePrevGet?
  }

  /** The expiry time a call brings for the key; a previous window is asked for without one. */
  function Brings(s: System, a: Action, k: Key): Option<int> {
    match a
    case TakeBegin(t, _) => if t < |s.pcs| && s.pcs[t].TakeCall? && s.pcs[t].cur == k then Some(s.pcs[t].e) else None
    case PeekBegin(t, _) => if t < |s.pcs| && s.pcs[t].PeekCall? && s.pcs[t].cur == k then Some(s.pcs[t].e) else None
    case TakeResume(t, _) => if t < |s.pcs| && s.pcs[t].TakeGot? && s.pcs[t].cur == k then Some(s.pcs[t].e) else None
    case PeekResume(t, _) => if t < |s.pcs| && s.pcs[t].PeekGot? && s.pcs[t].cur == k then Some(s.pcs[t].e) else None
    case TakeFinish(t, _) => if t < |s.pcs| && s.pcs[t].TakePrevGot? && s.pcs[t].prev == k then Some(0) else None
    case PeekFinish(t, _) => if t < |s.pcs| && s.pcs[t].PeekPrevGot? && s.pcs[t].prev == k then Some(0) else None
    case _ => None
  }

  // ---------------------------------------------------------------- what one step leaves in a key's window

  /** The count known is the answered GET's, the acknowledged EVAL's, or the one before. */
  predicate KnownFollows(s: System, a: Action, r: System, k: Key)
    requires Live(r, k)
  {
    if TakesOver(s, a, k) then At(r, k).redisKnown == Answer(s, a, k).value
    else if Acks(s, a, k) then At(r, k).redisKnown == s.pcs[a.t].reply
    else Live(s, k) && At(r, k).redisKnown == At(s, k).redisKnown
  }

  /** The buffered count grows by the hits that found the window mapped and falls by what was acknowledged. */
  predicate DeltaFollows(s: System, a: Action, r: System, k: Key)
    requires Live(r, k)
  {
    At(r, k).localDelta == Local(s, k) + (if Counts(s, a, r, k) && !Loses(s, a, k) then 1 else 0)
                           - (if Acks(s, a, k) then s.pcs[a.t].jobs[0].delta else 0)
  }

  /** The expiry time is the latest one brought. */
  predicate ExpiryFollows(s: System, a: Action, r: System, k: Key)
    requires Live(r, k)
  {
    if !Live(s, k) then Brings(s, a, k) == Some(At(r, k).expireAt)
    else if Brings(s, a, k).Some? && Brings(s, a, k).value > At(s, k).expireAt then At(r, k).expireAt == Brings(s, a, k).value
    else At(r, k).expireAt == At(s, k).expireAt
  }

  predicate WindowFollows(s: System, a: Action, r: System, k: Key) {
    k in r.windows ==> Live(r, k) && KnownFollows(s, a, r, k) && DeltaFollows(s, a, r, k) && ExpiryFollows(s, a, r, k)
  }

  /** Redis counts a key's EVALs and other writers until its TTL ends; a hit is one Take past its reads. */
  predicate BookFollows(s: System, a: Action, r: System, k: Key) {
    var b, c := BookOf(s, k), BookOf(r, k);
    && c.redis == (if Sends(s, a, k) then b.redis + s.pcs[a.t].jobs[0].delta
                   else if a == Expiry(k) then 0
                   else if a.Elsewhere? && a.key == k then b.redis + a.n
                   else b.redis)
    && c.inflight == (if Sends(s, a, k) then b.inflight + s.pcs[a.t].jobs[0].delta
                      else if Closes(s, a, k) then 0
                      else b.inflight)
    && c.tally.hits == b.tally.hits + if Counts(s, a, r, k) then 1 else 0
  }

  // ---------------------------------------------------------------- the parts of a section

  /** The end of a section changes marks only, and takes windows away. */
  ghost predicate Carries(s: System, r: System, k: Key) {
    && BookOf(r, k) == BookOf(s, k).(flusher := BookOf(r, k).flusher)
    && (k in r.windows ==> Live(s, k) && Live(r, k) && At(r, k) == At(s, k).(flushDelta := At(r, k).flushDelta))
  }

  lemma NextJobCarries(s: System, t: nat, jobs: seq<Job>, now: int, probe: bool, k: Key)
    requires t < |s.pcs| && forall x :: x in s.windows ==> Live(s, x)
    ensures Carries(s, NextJob(s, t, jobs, now, probe), k)
  {
  }

  lemma MarkCarries(s: System, t: nat, order: seq<Key>, k: Key)
    requires forall x :: x in s.windows ==> Live(s, x)
    ensures Carries(s, MarkAll(s, t, order), k)
  {
  }

  lemma FlushCarries(s: System, t: nat, order: seq<Key>, now: int, probe: bool, r: System, k: Key)
    requires t < |s.pcs| && StartsFlush(s, t, order, now, probe, r)
    ensures Carries(s, r, k)
  {
    hide NextJob;
    SameShape(s, t, order);
    MarkCarries(s, t, order, k);
    NextJobCarries(MarkAll(s, t, order), t, JobsFor(s, order), now, probe, k);
  }

  lemma EndsCarries(s: System, t: nat, ending: Ending, r: System, k: Key)
    requires t < |s.pcs| && Ends(s, t, ending, r) && (k in s.windows ==> Live(s, k))
    ensures Carries(s, r, k) && t < |r.pcs| && !r.pcs[t].TakeGet? && !r.pcs[t].TakePrevGet?
  {
    hide StartsFlush;
    if ending.Flush? {
      FlushCarries(s, t, ending.order, ending.now, ending.probe, r, k);
      FlushPcs(s, t, ending.order, ending.now, ending.probe, r);
      FlushGoes(s, t, ending.order, ending.now, ending.probe, r);
    }
  }

  lemma FlushGoes(s: System, t: nat, order: seq<Key>, now: int, probe: bool, r: System)
    requires t < |s.pcs| && StartsFlush(s, t, order, now, probe, r)
    ensures t < |r.pcs| && !r.pcs[t].TakeGet? && !r.pcs[t].TakePrevGet?
  {
  }

  /** The key's window is the key's own. */
  predicate Own(s: System, k: Key) { k in s.windows ==> Live(s, k) && s.heap[s.windows[k]].key == k }

  /** A GET result arrives: a window is made, or an idle one takes the count over. */
  lemma StoredIs(s: System, k0: Key, known: int, e: int, k: Key)
    requires Own(s, k0) && Own(s, k)
    ensures var r := Stored(s, k0, known, e);
            && BookOf(r, k) == BookOf(s, k) && (k in r.windows <==> k in s.windows || k == k0) && r.pcs == s.pcs && |s.heap| <= |r.heap|
            && Own(r, k)
            && (k in s.windows ==> r.windows[k] == s.windows[k])
            && (k in s.windows && k != k0 ==> At(r, k) == At(s, k))
            && (k !in s.windows && k == k0 ==> At(r, k).redisKnown == known && At(r, k).localDelta == 0 && At(r, k).expireAt == e && r.windows[k] == |s.heap|)
            && (k in s.windows && k == k0 ==>
                  && At(r, k).localDelta == At(s, k).localDelta
                  && At(r, k).expireAt == (if e > At(s, k).expireAt then e else At(s, k).expireAt)
                  && At(r, k).redisKnown == if At(s, k).localDelta == 0 then known else At(s, k).redisKnown)
  {
  }

  lemma RaisedIs(s: System, k0: Key, e: int, k: Key)
    requires Own(s, k0) && Own(s, k) && Live(s, k0)
    ensures var r := Written(s, s.windows[k0], Raised(At(s, k0), e));
            && BookOf(r, k) == BookOf(s, k) && r.windows == s.windows && r.pcs == s.pcs && |s.heap| == |r.heap|
            && Own(r, k)
            && (k in s.windows && k != k0 ==> At(r, k) == At(s, k))
            && (k == k0 ==>
                  && At(r, k).localDelta == At(s, k).localDelta && At(r, k).redisKnown == At(s, k).redisKnown
                  && At(r, k).expireAt == if e > At(s, k).expireAt then e else At(s, k).expireAt)
  {
  }

  /** A hit counts on the window the Take has, mapped or not. */
  lemma HitIs(s: System, k0: Key, wid: nat, k: Key)
    requires wid < |s.heap| && s.heap[wid].key == k0 && Own(s, k)
    ensures var r := Hit(s, k0, wid);
            && r.windows == s.windows && r.pcs == s.pcs && (k in r.windows ==> Live(r, k))
            && (k != k0 ==> BookOf(r, k) == BookOf(s, k))
            && BookOf(r, k).redis == BookOf(s, k).redis && BookOf(r, k).inflight == BookOf(s, k).inflight
            && BookOf(r, k).tally.hits == BookOf(s, k).tally.hits + (if k == k0 then 1 else 0)
            && (k in s.windows ==> At(r, k) == At(s, k).(localDelta := At(s, k).localDelta + if s.windows[k] == wid then 1 else 0))
  {
  }

  lemma TakesCarries(s: System, t: nat, cur: Key, prev: Key, e: int, wid: nat, ending: Ending, r: System, k: Key)
    requires t < |s.pcs| && wid < |s.heap| && s.heap[wid].key == cur && TakesFrom(s, t, cur, prev, e, wid, ending, r)
    requires Own(s, k)
    requires cur in s.windows && s.windows[cur] == wid
    ensures t < |r.pcs|
    ensures var counts := !r.pcs[t].TakeGet? && !r.pcs[t].TakePrevGet?;
            && BookOf(r, k).redis == BookOf(s, k).redis && BookOf(r, k).inflight == BookOf(s, k).inflight
            && BookOf(r, k).tally.hits == BookOf(s, k).tally.hits + (if k == cur && counts then 1 else 0)
            && (k in r.windows ==> Live(s, k))
            && (k in r.windows ==> Live(r, k))
            && (k in r.windows ==>
                  At(r, k) == At(s, k).(localDelta := At(s, k).localDelta + (if k == cur && counts then 1 else 0), flushDelta := At(r, k).flushDelta))
  {
    hide Ends, Hit;
    HitIs(s, cur, wid, k);
    if prev in s.windows { EndsCarries(Hit(s, cur, wid), t, ending, r, k); }
  }

  lemma PeeksCarries(s: System, t: nat, prev: Key, ending: Ending, r: System, k: Key)
    requires t < |s.pcs| && PeeksFrom(s, t, prev, ending, r) && (k in s.windows ==> Live(s, k))
    ensures Carries(s, r, k)
  {
    hide Ends;
    if prev in s.windows { EndsCarries(s, t, ending, r, k); }
  }

  // ---------------------------------------------------------------- the steps

  predicate Follows(s: System, a: Action, r: System, k: Key) { WindowFollows(s, a, r, k) && BookFollows(s, a, r, k) }

  lemma TakeBeginFollows(s: System, a: Action, r: System, k: Key)
    requires Step(s, a, r) && a.TakeBegin? && (forall x :: KeyOK(s, x))
    ensures Follows(s, a, r, k)
  {
    hide TakesFrom, KeyOK, Written;
    var TakeCall(cur, prev, e) := s.pcs[a.t];
    KeyFacts(s, cur);
    KeyFacts(s, k);
    if Live(s, cur) {
      RaisedIs(s, cur, e, k);
      RaisedIs(s, cur, e, cur);
      if At(s, cur).localDelta != 0 {
        TakesCarries(Written(s, s.windows[cur], Raised(At(s, cur), e)), a.t, cur, prev, e, s.windows[cur], a.ending, r, k);
      }
    }
  }

  lemma KeyFacts(s: System, k: Key)
    requires KeyOK(s, k)
    ensures Own(s, k)
  {
  }

  lemma PeekBeginFollows(s: System, a: Action, r: System, k: Key)
    requires Step(s, a, r) && a.PeekBegin? && (forall x :: KeyOK(s, x))
    ensures Follows(s, a, r, k)
  {
    hide PeeksFrom, KeyOK, Written;
    var PeekCall(cur, prev, e) := s.pcs[a.t];
    KeyFacts(s, cur);
    KeyFacts(s, k);
    if Live(s, cur) {
      RaisedIs(s, cur, e, k);
      PeeksCarries(Written(s, s.windows[cur], Raised(At(s, cur), e)), a.t, prev, a.ending, r, k);
    }
  }

  lemma TakeResumeFollows(s: System, a: Action, r: System, k: Key)
    requires Step(s, a, r) && a.TakeResume? && (forall x :: KeyOK(s, x))
    ensures Follows(s, a, r, k)
  {
    hide TakesFrom, KeyOK, Stored;
    var TakeGot(cur, prev, e, known) := s.pcs[a.t];
    KeyFacts(s, cur);
    KeyFacts(s, k);
    StoredIs(s, cur, known, e, k);
    StoredIs(s, cur, known, e, cur);
    var s1 := Stored(s, cur, known, e);
    TakesCarries(s1, a.t, cur, prev, e, s1.windows[cur], a.ending, r, k);
  }

  lemma PeekResumeFollows(s: System, a: Action, r: System, k: Key)
    requires Step(s, a, r) && a.PeekResume? && (forall x :: KeyOK(s, x))
    ensures Follows(s, a, r, k)
  {
    hide PeeksFrom, KeyOK, Stored;
    var PeekGot(cur, prev, e, known) := s.pcs[a.t];
    KeyFacts(s, k);
    KeyFacts(s, cur);
    StoredIs(s, cur, known, e, k);
    PeeksCarries(Stored(s, cur, known, e), a.t, prev, a.ending, r, k);
  }

  lemma PeekFinishFollows(s: System, a: Action, r: System, k: Key)
    requires Step(s, a, r) && a.PeekFinish? && (forall x :: KeyOK(s, x))
    ensures Follows(s, a, r, k)
  {
    hide Ends, KeyOK, Stored;
    var PeekPrevGot(prev, known) := s.pcs[a.t];
    KeyFacts(s, k);
    KeyFacts(s, prev);
    StoredIs(s, prev, known, 0, k);
    EndsCarries(Stored(s, prev, known, 0), a.t, a.ending, r, k);
  }

  lemma TakeFinishFollows(s: System, a: Action, r: System, k: Key)
    requires Step(s, a, r) && a.TakeFinish? && (forall x :: KeyOK(s, x)) && PcOK(s, a.t, s.pcs[a.t])
    ensures Follows(s, a, r, k)
  {
    hide Ends, KeyOK, Hit;
    var TakePrevGot(cur, prev, e, wid, known) := s.pcs[a.t];
    KeyFacts(s, k);
    KeyFacts(s, prev);
    StoredIs(s, prev, known, 0, k);
    StoredHolds(s, prev, known, cur, e, wid);
    hide Stored;
    var s1 := Stored(s, prev, known, 0);
    HitIs(s1, cur, wid, k);
    EndsCarries(Hit(s1, cur, wid), a.t, a.ending, r, k);
  }

  lemma SettledIs(s: System, job: Job, ok: bool, applied: int, reply: int, k: Key)
    requires Own(s, job.key) && Own(s, k) && Live(s, job.key)
    ensures var r := Settled(s, job, ok, applied, reply);
            && r.windows == s.windows && r.pcs == s.pcs && (k in r.windows ==> Live(r, k))
            && BookOf(r, k).redis == BookOf(s, k).redis && BookOf(r, k).tally.hits == BookOf(s, k).tally.hits
            && BookOf(r, k).inflight == (if k == job.key then 0 else BookOf(s, k).inflight)
            && (k in s.windows && k != job.key ==> At(r, k) == At(s, k))
            && (k == job.key ==>
                  && At(r, k).expireAt == At(s, k).expireAt
                  && At(r, k).redisKnown == (if ok then reply else At(s, k).redisKnown)
                  && At(r, k).localDelta == At(s, k).localDelta - if ok then job.delta else 0)
  {
  }

  lemma SettleFollows(s: System, a: Action, r: System, k: Key)
    requires Step(s, a, r) && a.Settle? && (forall x :: KeyOK(s, x)) && PcOK(s, a.t, s.pcs[a.t])
    ensures Follows(s, a, r, k)
  {
    hide KeyOK, Settled, NextJob;
    var Evaluating(jobs, now, probe, applied, reply) := s.pcs[a.t];
    assert JobOK(s, a.t, jobs[0]);
    KeyFacts(s, k);
    KeyFacts(s, jobs[0].key);
    SettledIs(s, jobs[0], a.ok, applied, reply, k);
    NextJobCarries(Settled(s, jobs[0], a.ok, applied, reply), a.t, jobs[1..], now, probe, k);
  }

  lemma FlushBeginFollows(s: System, a: Action, r: System, k: Key)
    requires Step(s, a, r) && a.FlushBegin? && (forall x :: KeyOK(s, x))
    ensures Follows(s, a, r, k)
  {
    hide KeyOK, StartsFlush;
    KeyFacts(s, k);
    FlushCarries(s, a.t, a.order, a.now, false, r, k);
  }

  lemma RedisFollows(s: System, a: Action, r: System, k: Key)
    requires Step(s, a, r) && (a.Apply? || a.Elsewhere? || a.Expiry?) && Own(s, k)
    ensures Follows(s, a, r, k)
  {
    assert r.windows == s.windows && r.heap == s.heap;
    assert Live(r, k) == Live(s, k);
  }

  lemma ThreadFollows(s: System, a: Action, r: System, k: Key)
    requires Step(s, a, r) && (a.Spawn? || a.Get? || a.GetFails? || a.ProbeEnds?) && Own(s, k)
    ensures Follows(s, a, r, k)
  {
    assert r.windows == s.windows && r.heap == s.heap && r.books == s.books;
    assert Live(r, k) == Live(s, k);
  }

  /** In every step of every run: what Redis holds for a key, what its window knows, buffers and expires at. */
  lemma StepFollows(s: System, a: Action, r: System, k: Key)
    requires Inv(s) && Step(s, a, r)
    ensures Follows(s, a, r, k)
  {
    hide KeyOK, FlusherOK, Follows;
    if a.TakeFinish? { assert PcOK(s, a.t, s.pcs[a.t]); TakeFinishFollows(s, a, r, k); }
    else if a.Settle? { assert PcOK(s, a.t, s.pcs[a.t]); SettleFollows(s, a, r, k); }
    hide Step;
    if a.TakeBegin? { TakeBeginFollows(s, a, r, k); }
    else if a.PeekBegin? { PeekBeginFollows(s, a, r, k); }
    else if a.TakeResume? { TakeResumeFollows(s, a, r, k); }
    else if a.PeekResume? { PeekResumeFollows(s, a, r, k); }
    else if a.PeekFinish? { PeekFinishFollows(s, a, r, k); }
    else if a.FlushBegin? { FlushBeginFollows(s, a, r, k); }
    else if a.Apply? || a.Elsewhere? || a.Expiry? { KeyFacts(s, k); RedisFollows(s, a, r, k); }
    else if !a.TakeFinish? && !a.Settle? { KeyFacts(s, k); ThreadFollows(s, a, r, k); }
  }

  // ---------------------------------------------------------------- what a flush sends and sweeps

  /** If thread t has just begun a flush: each job carries its window's whole count and expiry time, and no window
      with an unflushed count is left out. */
  ghost predicate SendsAll(r: System, t: nat) {
    t < |r.pcs| && r.pcs[t].Evaluating? ==>
      && (forall k :: k in r.windows ==> Live(r, k) && (At(r, k).localDelta > 0 ==> At(r, k).flushDelta != 0))
      && (forall i :: 0 <= i < |r.pcs[t].jobs| ==> WholeJob(r, r.pcs[t].jobs[i]))
  }

  predicate WholeJob(r: System, job: Job) {
    Live(r, job.key) && At(r, job.key).localDelta == At(r, job.key).flushDelta == job.delta > 0 && At(r, job.key).expireAt == job.expireAt
  }

  lemma FlushBegun(s: System, t: nat, order: seq<Key>, now: int, probe: bool, r: System)
    requires t < |s.pcs| && StartsFlush(s, t, order, now, probe, r) && (forall k :: Own(s, k))
    ensures SendsAll(r, t)
  {
    if order != [] {
      forall i | 0 <= i < |order| ensures WholeJob(r, Job(order[i], At(s, order[i]).localDelta, At(s, order[i]).expireAt)) {
        assert order[i] in order && Own(s, order[i]);
      }
      forall k | k in r.windows ensures Live(r, k) && (At(r, k).localDelta > 0 ==> At(r, k).flushDelta != 0) { assert Own(s, k); }
    }
  }

  lemma EndsBegun(s: System, t: nat, ending: Ending, r: System)
    requires t < |s.pcs| && Ends(s, t, ending, r) && (forall k :: Own(s, k))
    ensures SendsAll(r, t)
  {
    hide StartsFlush, Own, WholeJob;
    if ending.Flush? { FlushBegun(s, t, ending.order, ending.now, ending.probe, r); }
  }

  lemma TakesBegun(s: System, t: nat, cur: Key, prev: Key, e: int, wid: nat, ending: Ending, r: System)
    requires t < |s.pcs| && wid < |s.heap| && TakesFrom(s, t, cur, prev, e, wid, ending, r) && (forall k :: Own(s, k))
    ensures SendsAll(r, t)
  {
    hide Ends, WholeJob;
    if prev in s.windows {
      forall k ensures Own(Hit(s, cur, wid), k) { assert Own(s, k); }
      EndsBegun(Hit(s, cur, wid), t, ending, r);
    }
  }

  lemma PeeksBegun(s: System, t: nat, prev: Key, ending: Ending, r: System)
    requires t < |s.pcs| && PeeksFrom(s, t, prev, ending, r) && (forall k :: Own(s, k))
    ensures SendsAll(r, t)
  {
    hide Ends, WholeJob, Own;
    if prev in s.windows { EndsBegun(s, t, ending, r); }
  }

  lemma BeginBegun(s: System, a: Action, r: System)
    requires Step(s, a, r) && (a.TakeBegin? || a.PeekBegin?) && (forall k :: Own(s, k))
    ensures SendsAll(r, a.t)
  {
    hide TakesFrom, PeeksFrom, WholeJob;
    var pc := s.pcs[a.t];
    if Live(s, pc.cur) {
      var s1 := Written(s, s.windows[pc.cur], Raised(At(s, pc.cur), pc.e));
      forall k ensures Own(s1, k) { assert Own(s, k); }
      if a.PeekBegin? { PeeksBegun(s1, a.t, pc.prev, a.ending, r); }
      else if At(s, pc.cur).localDelta != 0 { TakesBegun(s1, a.t, pc.cur, pc.prev, pc.e, s.windows[pc.cur], a.ending, r); }
    }
  }

  lemma ResumeBegun(s: System, a: Action, r: System)
    requires Step(s, a, r) && (a.TakeResume? || a.PeekResume? || a.PeekFinish? || a.TakeFinish?) && (forall k :: Own(s, k))
    ensures SendsAll(r, a.t)
  {
    hide TakesFrom, PeeksFrom, Ends, WholeJob, SendsAll;
    var pc := s.pcs[a.t];
    var s1 := if a.PeekFinish? || a.TakeFinish? then Stored(s, pc.prev, pc.known, 0) else Stored(s, pc.cur, pc.known, pc.e);
    forall k ensures Own(s1, k) { assert Own(s, k); }
    if a.TakeResume? { TakesBegun(s1, a.t, pc.cur, pc.prev, pc.e, s1.windows[pc.cur], a.ending, r); }
    else if a.PeekResume? { PeeksBegun(s1, a.t, pc.prev, a.ending, r); }
    else if a.PeekFinish? { EndsBegun(s1, a.t, a.ending, r); }
    else {
      forall k ensures Own(Hit(s1, pc.cur, pc.wid), k) { assert Own(s1, k); }
      EndsBegun(Hit(s1, pc.cur, pc.wid), a.t, a.ending, r);
    }
  }

  /** A flush that gets under way sends every unflushed count, whole and once, with its window's expiry time. */
  lemma FlushSendsAll(s: System, a: Action, r: System)
    requires Inv(s) && Step(s, a, r) && Mover(a).Some? && a.t < |s.pcs| && !s.pcs[a.t].Evaluating?
    ensures SendsAll(r, a.t)
  {
    hide KeyOK, PcOK, FlusherOK, StartsFlush, Take, Peek, TakesFrom, PeeksFrom, Ends, WholeJob, SendsAll;
    forall k ensures Own(s, k) { assert KeyOK(s, k); KeyFacts(s, k); }
    if a.TakeBegin? || a.PeekBegin? { BeginBegun(s, a, r); }
    else if a.TakeResume? || a.PeekResume? || a.PeekFinish? || a.TakeFinish? { ResumeBegun(s, a, r); }
    else if a.FlushBegin? { FlushBegun(s, a.t, a.order, a.now, false, r); }
    else { assert !r.pcs[a.t].Evaluating?; NotBegun(r, a.t); }
  }

  lemma NotBegun(r: System, t: nat)
    requires t < |r.pcs| && !r.pcs[t].Evaluating?
    ensures SendsAll(r, t)
  {
  }

  /** A window leaves the map exactly when a sweep finds nothing in it, nothing of it in flight, and its expiry time
      reached or never set. */
  lemma SweptIff(s: System, a: Action, r: System, k: Key)
    requires Inv(s) && Step(s, a, r) && k in s.windows
    ensures k !in r.windows <==>
            SweepOf(s, a).Some? && var Eve(m, now) := SweepOf(s, a).value;
            Live(m, k) && At(m, k).localDelta == 0 && At(m, k).flushDelta == 0 && (At(m, k).expireAt == 0 || now >= At(m, k).expireAt)
  {
    hide Step, Inv, SweepOf;
    StepFate(s, a, r, k);
  }
}
