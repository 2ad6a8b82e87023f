/** Where a window's count comes from, and when the estimate a Take works with is the number of hits. */
module WindowEstimate {
  import opened Basics
  import opened WindowSystem
  import opened WindowInvariant
  import opened WindowSteps
  import opened WindowRuns
  import opened WindowLoss
  import opened WindowExact

  // ---------------------------------------------------------------- where an answer comes from

  /** The key whose GET answer a thread holds. */
  function Heard(pc: Pc): Option<Key> {
    match pc
    case TakeGot(cur, _, _, _) => Some(cur)
    case TakePrevGot(_, prev, _, _, _) => Some(prev)
    case PeekGot(cur, _, _, _) => Some(cur)
    case PeekPrevGot(prev, _) => Some(prev)
    case _ => None
  }

  predicate Learnt(pc: Pc) { Heard(pc).Some? || (pc.Evaluating? && pc.applied != 0) }

  /** A thread learns something only by its own GET or EVAL, and then what Redis holds. */
  ghost predicate Learns(s: System, a: Action, r: System, t: nat)
    requires t < |r.pcs|
  {
    Learnt(r.pcs[t]) ==>
      if a == Get(t) then Heard(r.pcs[t]).Some? && r.pcs[t].known == BookOf(s, Heard(r.pcs[t]).value).redis
      else if a == Apply(t) then r.pcs[t].Evaluating? && r.pcs[t].jobs != [] && r.pcs[t].reply == BookOf(r, r.pcs[t].jobs[0].key).redis
      else t < |s.pcs| && r.pcs[t] == s.pcs[t]
  }

  lemma FlushLearns(s: System, t: nat, order: seq<Key>, now: int, probe: bool, r: System)
    requires t < |s.pcs| && StartsFlush(s, t, order, now, probe, r)
    ensures t < |r.pcs| && !Learnt(r.pcs[t])
  {
  }

  lemma EndsLearns(s: System, t: nat, ending: Ending, r: System)
    requires t < |s.pcs| && Ends(s, t, ending, r)
    ensures t < |r.pcs| && !Learnt(r.pcs[t])
  {
    hide StartsFlush;
    if ending.Flush? { FlushLearns(s, t, ending.order, ending.now, ending.probe, r); }
  }

  lemma TakesLearns(s: System, t: nat, cur: Key, prev: Key, e: int, wid: nat, ending: Ending, r: System)
    requires t < |s.pcs| && wid < |s.heap| && TakesFrom(s, t, cur, prev, e, wid, ending, r)
    ensures t < |r.pcs| && !Learnt(r.pcs[t])
  {
    hide Ends;
    if prev in s.windows { EndsLearns(Hit(s, cur, wid), t, ending, r); }
  }

  lemma PeeksLearns(s: System, t: nat, prev: Key, ending: Ending, r: System)
    requires t < |s.pcs| && PeeksFrom(s, t, prev, ending, r)
    ensures t < |r.pcs| && !Learnt(r.pcs[t])
  {
    hide Ends;
    if prev in s.windows { EndsLearns(s, t, ending, r); }
  }

  lemma BeginLearns(s: System, a: Action, r: System)
    requires Step(s, a, r) && (a.TakeBegin? || a.PeekBegin?)
    ensures a.t < |r.pcs| && !Learnt(r.pcs[a.t])
  {
    hide TakesFrom, PeeksFrom;
    var pc := s.pcs[a.t];
    if Live(s, pc.cur) {
      var s1 := Written(s, s.windows[pc.cur], Raised(At(s, pc.cur), pc.e));
      if a.PeekBegin? { PeeksLearns(s1, a.t, pc.prev, a.ending, r); }
      else if At(s, pc.cur).localDelta != 0 { TakesLearns(s1, a.t, pc.cur, pc.prev, pc.e, s.windows[pc.cur], a.ending, r); }
    }
  }

  lemma ResumeLearns(s: System, a: Action, r: System)
    requires Step(s, a, r) && (a.TakeResume? || a.PeekResume? || a.PeekFinish? || a.TakeFinish?)
    ensures a.t < |r.pcs| && !Learnt(r.pcs[a.t])
  {
    hide TakesFrom, PeeksFrom, Ends, Learnt;
    var pc := s.pcs[a.t];
    var s1 := if a.PeekFinish? || a.TakeFinish? then Stored(s, pc.prev, pc.known, 0) else Stored(s, pc.cur, pc.known, pc.e);
    if a.TakeResume? { TakesLearns(s1, a.t, pc.cur, pc.prev, pc.e, s1.windows[pc.cur], a.ending, r); }
    else if a.PeekResume? { PeeksLearns(s1, a.t, pc.prev, a.ending, r); }
    else if a.PeekFinish? { EndsLearns(s1, a.t, a.ending, r); }
    else { EndsLearns(Hit(s1, pc.cur, pc.wid), a.t, a.ending, r); }
  }

  lemma SettleLearns(s: System, t: nat, ok: bool, r: System)
    requires t < |s.pcs| && s.pcs[t].Evaluating? && s.pcs[t].jobs != [] && Settles(s, t, ok, r)
    ensures t < |r.pcs| && !Learnt(r.pcs[t])
  {
    var pc := s.pcs[t];
    assert Settled(s, pc.jobs[0], ok, pc.applied, pc.reply).pcs == s.pcs;
    hide Settled;
  }

  lemma RestLearns(s: System, a: Action, r: System)
    requires Step(s, a, r) && Mover(a).Some?
    requires !a.TakeBegin? && !a.PeekBegin? && !a.TakeResume? && !a.PeekResume? && !a.PeekFinish? && !a.TakeFinish?
    ensures a.t < |r.pcs| && Learns(s, a, r, a.t)
  {
    hide StartsFlush, Settles;
    if a.FlushBegin? { FlushLearns(s, a.t, a.order, a.now, false, r); }
    else if a.Settle? { SettleLearns(s, a.t, a.ok, r); }
  }

  lemma MoverLearns(s: System, a: Action, r: System)
    requires Step(s, a, r) && Mover(a).Some?
    ensures a.t < |r.pcs| && Learns(s, a, r, a.t)
  {
    hide Step;
    if a.TakeBegin? || a.PeekBegin? { BeginLearns(s, a, r); }
    else if a.TakeResume? || a.PeekResume? || a.PeekFinish? || a.TakeFinish? { ResumeLearns(s, a, r); }
    else { RestLearns(s, a, r); }
  }

  lemma SpawnLearns(s: System, a: Action, r: System, t: nat)
    requires Step(s, a, r) && t < |r.pcs| && Mover(a).None?
    ensures Learns(s, a, r, t)
  {
  }

  lemma StepLearns(s: System, a: Action, r: System, t: nat)
    requires Step(s, a, r) && t < |r.pcs|
    ensures Learns(s, a, r, t)
  {
    hide Step, Learnt, SweepOf;
    if Mover(a).None? { SpawnLearns(s, a, r, t); }
    else if a.t == t { MoverLearns(s, a, r); }
    else { StepPcs(s, a, r); }
  }

  /** From after step i up to j the thread has not moved. */
  ghost predicate Waited(run: seq<System>, t: nat, i: nat, j: nat) {
    i < j < |run| && t < |run[j].pcs| && forall l :: i < l <= j ==> t < |run[l].pcs| && run[l].pcs[t] == run[j].pcs[t]
  }

  /** Step i is the GET, or the EVAL, whose answer thread t still holds at j. */
  ghost predicate Asked(run: seq<System>, acts: seq<Action>, t: nat, i: nat, j: nat) {
    i < |acts| && Waited(run, t, i, j) && (acts[i] == Get(t) || acts[i] == Apply(t))
  }

  lemma {:induction false} WasAsked(run: seq<System>, acts: seq<Action>, j: nat, t: nat)
    requires Run(run, acts) && j < |run| && t < |run[j].pcs| && Learnt(run[j].pcs[t])
    ensures exists i: nat :: Asked(run, acts, t, i, j)
  {
    hide Step, Learnt;
    if j > 0 {
      StepLearns(run[j - 1], acts[j - 1], run[j], t);
      if acts[j - 1] == Get(t) || acts[j - 1] == Apply(t) { assert Asked(run, acts, t, j - 1, j); }
      else {
        WasAsked(run, acts, j - 1, t);
        var i: nat :| Asked(run, acts, t, i, j - 1);
        assert Asked(run, acts, t, i, j);
      }
    }
  }

  /** The answer thread t holds at j is the count Redis held at its GET in step i, or right after its EVAL. */
  ghost predicate TrueAt(run: seq<System>, acts: seq<Action>, t: nat, i: nat, j: nat)
    requires i < |acts| && i + 1 < |run| && j < |run| && t < |run[j].pcs|
  {
    var pc := run[j].pcs[t];
    if acts[i] == Get(t) then Heard(pc).Some? && pc.known == BookOf(run[i], Heard(pc).value).redis
    else pc.Evaluating? && pc.jobs != [] && pc.reply == BookOf(run[i + 1], pc.jobs[0].key).redis
  }

  lemma AskedIsTrue(run: seq<System>, acts: seq<Action>, j: nat, t: nat, i: nat)
    requires Run(run, acts) && j < |run| && t < |run[j].pcs| && Learnt(run[j].pcs[t]) && Asked(run, acts, t, i, j)
    ensures TrueAt(run, acts, t, i, j)
  {
    hide Step, Learnt;
    StepLearns(run[i], acts[i], run[i + 1], t);
  }

  /** A thread that has an answer asked for it, and the answer is true. */
  lemma AnswerIsCount(run: seq<System>, acts: seq<Action>, j: nat, t: nat)
    requires Run(run, acts) && j < |run| && t < |run[j].pcs| && Learnt(run[j].pcs[t])
    ensures exists i: nat :: Asked(run, acts, t, i, j) && TrueAt(run, acts, t, i, j)
  {
    hide Step, Learnt, TrueAt;
    WasAsked(run, acts, j, t);
    var i: nat :| Asked(run, acts, t, i, j);
    AskedIsTrue(run, acts, j, t, i);
  }

  /** A first sight of a key, and an idle window's GET, leave as the known count what Redis held at that thread's GET. */
  lemma FirstSightIsCount(run: seq<System>, acts: seq<Action>, j: nat, k: Key)
    requires Run(run, acts) && j < |acts| && k in run[j + 1].windows && TakesOver(run[j], acts[j], k)
    ensures Live(run[j + 1], k)
    ensures exists i: nat :: i < j && Asked(run, acts, acts[j].t, i, j) && acts[i] == Get(acts[j].t)
                             && At(run[j + 1], k).redisKnown == BookOf(run[i], k).redis
  {
    var s, a := run[j], acts[j];
    assert a.t < |s.pcs| && Heard(s.pcs[a.t]) == Some(k) && Answer(s, a, k) == Some(s.pcs[a.t].known);
    assert Learnt(s.pcs[a.t]) && !s.pcs[a.t].Evaluating?;
    hide Inv, Step, Learnt, Answer, Heard;
    RunFollows(run, acts, j, k);
    AnswerIsCount(run, acts, j, a.t);
    var i: nat :| Asked(run, acts, a.t, i, j) && TrueAt(run, acts, a.t, i, j);
  }

  /** An acknowledged EVAL leaves what Redis held right after it. */
  lemma AckIsCount(run: seq<System>, acts: seq<Action>, j: nat, k: Key)
    requires Run(run, acts) && j < |acts| && k in run[j + 1].windows && Acks(run[j], acts[j], k)
    ensures Live(run[j + 1], k)
    ensures exists i: nat :: i < j && Asked(run, acts, acts[j].t, i, j) && acts[i] == Apply(acts[j].t)
                             && At(run[j + 1], k).redisKnown == BookOf(run[i + 1], k).redis
  {
    var s, a := run[j], acts[j];
    assert Step(s, a, run[j + 1]);
    assert Learnt(s.pcs[a.t]) && Heard(s.pcs[a.t]).None? && Answer(s, a, k).None?;
    hide Inv, Step, Learnt, Answer, Heard;
    RunFollows(run, acts, j, k);
    AnswerIsCount(run, acts, j, a.t);
    var i: nat :| Asked(run, acts, a.t, i, j) && TrueAt(run, acts, a.t, i, j);
  }

  /** Nothing else changes what a window knows, and only these make one. */
  lemma OtherwiseUnchanged(run: seq<System>, acts: seq<Action>, j: nat, k: Key)
    requires Run(run, acts) && j < |acts| && k in run[j + 1].windows && !TakesOver(run[j], acts[j], k) && !Acks(run[j], acts[j], k)
    ensures Live(run[j + 1], k) && Live(run[j], k) && At(run[j + 1], k).redisKnown == At(run[j], k).redisKnown
  {
    hide Inv, Step, TakesOver, Acks;
    RunFollows(run, acts, j, k);
  }

  lemma RunFollows(run: seq<System>, acts: seq<Action>, j: nat, k: Key)
    requires Run(run, acts) && j < |acts|
    ensures Follows(run[j], acts[j], run[j + 1], k)
  {
    hide Inv, Step, Follows;
    RunInv(run, acts, j);
    StepFollows(run[j], acts[j], run[j + 1], k);
  }

  // ---------------------------------------------------------------- answers that were overtaken

  /** While thread t held its answer, an EVAL added to the key. */
  ghost predicate Overtaken(run: seq<System>, acts: seq<Action>, t: nat, j: nat, k: Key) {
    exists i: nat, m: nat :: Asked(run, acts, t, i, j) && i < m < j && m < |acts| && Sends(run[m], acts[m], k)
  }

  /** Only the thread that has the key in flight sends, and it sends a positive delta. */
  lemma SendsOwn(s: System, a: Action, k: Key)
    requires Inv(s) && Sends(s, a, k)
    ensures s.pcs[a.t].jobs[0].delta > 0 && BookOf(s, k).flusher == Some(a.t)
  {
    hide KeyOK, FlusherOK;
    assert PcOK(s, a.t, s.pcs[a.t]) && JobOK(s, a.t, s.pcs[a.t].jobs[0]);
  }

  lemma RedisStep(run: seq<System>, acts: seq<Action>, j: nat, k: Key)
    requires Run(run, acts) && j < |acts| && Undisturbed(run[j], acts[j], k)
    ensures if Sends(run[j], acts[j], k) then BookOf(run[j], k).redis < BookOf(run[j + 1], k).redis
            else BookOf(run[j], k).redis == BookOf(run[j + 1], k).redis
  {
    hide Step, Inv, WindowFollows;
    RunFollows(run, acts, j, k);
    RunInv(run, acts, j);
    if Sends(run[j], acts[j], k) { SendsOwn(run[j], acts[j], k); }
  }

  ghost predicate NoneSent(run: seq<System>, acts: seq<Action>, i: nat, j: nat, k: Key) {
    forall m: nat :: i <= m < j && m < |acts| && m < |run| ==> !Sends(run[m], acts[m], k)
  }

  /** Undisturbed, a key's count in Redis stays exactly while no EVAL adds to it. */
  lemma {:induction false} RedisGrows(run: seq<System>, acts: seq<Action>, i: nat, j: nat, k: Key)
    requires Run(run, acts) && i <= j < |run| && forall m :: i <= m < j ==> Undisturbed(run[m], acts[m], k)
    ensures BookOf(run[i], k).redis <= BookOf(run[j], k).redis
    ensures BookOf(run[i], k).redis == BookOf(run[j], k).redis <==> NoneSent(run, acts, i, j, k)
  {
    hide Step, Sends, Undisturbed;
    if i < j {
      RedisGrows(run, acts, i, j - 1, k);
      RedisStep(run, acts, j - 1, k);
      assert NoneSent(run, acts, i, j, k) <==> NoneSent(run, acts, i, j - 1, k) && !Sends(run[j - 1], acts[j - 1], k);
    }
  }

  lemma HeardAt(run: seq<System>, acts: seq<Action>, t: nat, i: nat, j: nat, k: Key)
    requires Run(run, acts) && j < |run| && t < |run[j].pcs| && Heard(run[j].pcs[t]) == Some(k) && Asked(run, acts, t, i, j)
    ensures acts[i] == Get(t) && run[j].pcs[t].known == BookOf(run[i], k).redis
  {
    hide Step;
    AskedIsTrue(run, acts, j, t, i);
  }

  /** An answer is still the count Redis holds exactly if no EVAL has overtaken it. */
  lemma CurrentIff(run: seq<System>, acts: seq<Action>, t: nat, j: nat, k: Key)
    requires Run(run, acts) && j < |run| && t < |run[j].pcs| && Heard(run[j].pcs[t]) == Some(k)
    requires forall m :: 0 <= m < j ==> Undisturbed(run[m], acts[m], k)
    ensures run[j].pcs[t].known == BookOf(run[j], k).redis <==> !Overtaken(run, acts, t, j, k)
  {
    hide Step, Undisturbed, Heard, Waited;
    WasHeard(run, acts, t, j, k);
    var i: nat :| Asked(run, acts, t, i, j) && i < j;
    HeardAt(run, acts, t, i, j, k);
    RedisGrows(run, acts, i, j, k);
    if Overtaken(run, acts, t, j, k) {
      var i': nat, m: nat :| Asked(run, acts, t, i', j) && i' < m < j && m < |acts| && Sends(run[m], acts[m], k);
      HeardAt(run, acts, t, i', j, k);
      RedisGrows(run, acts, i', j, k);
    }
  }

  lemma WasHeard(run: seq<System>, acts: seq<Action>, t: nat, j: nat, k: Key)
    requires Run(run, acts) && j < |run| && t < |run[j].pcs| && Heard(run[j].pcs[t]) == Some(k)
    ensures exists i: nat :: Asked(run, acts, t, i, j) && i < j
  {
    hide Step;
    WasAsked(run, acts, j, t);
  }

  // ---------------------------------------------------------------- the estimate

  /** The window knows all that Redis holds but its own EVAL under way. */
  predicate Exact(s: System, k: Key) { Live(s, k) ==> At(s, k).redisKnown == BookOf(s, k).redis - BookOf(s, k).inflight }

  /** A flush that has applied the key's delta knows the count. */
  ghost predicate Told(s: System, k: Key) {
    forall t :: 0 <= t < |s.pcs| && Applied(s.pcs[t], k) ==> s.pcs[t].reply == BookOf(s, k).redis
  }

  predicate Applied(pc: Pc, k: Key) { pc.Evaluating? && pc.jobs != [] && pc.jobs[0].key == k && pc.applied != 0 }

  lemma AppliedOwn(s: System, t: nat, k: Key)
    requires Inv(s) && t < |s.pcs| && Applied(s.pcs[t], k)
    ensures BookOf(s, k).flusher == Some(t)
  {
    hide KeyOK, FlusherOK;
    assert PcOK(s, t, s.pcs[t]) && JobOK(s, t, s.pcs[t].jobs[0]);
  }

  lemma ToldOne(s: System, a: Action, r: System, t: nat, k: Key)
    requires Inv(s) && Told(s, k) && Step(s, a, r) && Undisturbed(s, a, k) && t < |r.pcs| && Applied(r.pcs[t], k)
    ensures r.pcs[t].reply == BookOf(r, k).redis
  {
    hide Step, Inv, WindowFollows;
    StepFollows(s, a, r, k);
    StepLearns(s, a, r, t);
    if a != Apply(t) {
      AppliedOwn(s, t, k);
      if Sends(s, a, k) { SendsOwn(s, a, k); }
    }
  }

  lemma ToldStep(s: System, a: Action, r: System, k: Key)
    requires Inv(s) && Told(s, k) && Step(s, a, r) && Undisturbed(s, a, k)
    ensures Told(r, k)
  {
    hide Step, Inv, Undisturbed;
    forall t | 0 <= t < |r.pcs| && Applied(r.pcs[t], k) ensures r.pcs[t].reply == BookOf(r, k).redis { ToldOne(s, a, r, t, k); }
  }

  /** Where an answer is taken over nothing is in flight. */
  lemma IdleWindow(s: System, k: Key)
    requires Inv(s) && (k in s.windows ==> Live(s, k) && At(s, k).localDelta == 0)
    ensures BookOf(s, k).inflight == 0
  {
    hide FlusherOK, PcOK;
    assert KeyOK(s, k);
    if k in s.windows { assert WindowOK(At(s, k)); }
  }

  /** What a settling flush knows of its own EVAL. */
  lemma ClosesOwn(s: System, a: Action, r: System, k: Key)
    requires Inv(s) && Step(s, a, r) && Closes(s, a, k)
    ensures BookOf(s, k).inflight == s.pcs[a.t].applied && (a.ok ==> s.pcs[a.t].applied > 0)
  {
    hide KeyOK, FlusherOK;
    assert PcOK(s, a.t, s.pcs[a.t]);
  }

  lemma ExactStep(s: System, a: Action, r: System, k: Key)
    requires Inv(s) && Exact(s, k) && Told(s, k) && Step(s, a, r) && Undisturbed(s, a, k)
    requires TakesOver(s, a, k) ==> Answer(s, a, k).value == BookOf(s, k).redis
    ensures Exact(r, k)
  {
    hide Step, Inv, DeltaFollows, ExpiryFollows;
    StepFollows(s, a, r, k);
    if TakesOver(s, a, k) { IdleWindow(s, k); }
    if Closes(s, a, k) { ClosesOwn(s, a, r, k); }
  }

  /** A step takes over an answer that an EVAL has overtaken. */
  ghost predicate TakesOld(run: seq<System>, acts: seq<Action>, j: nat, k: Key) {
    j < |acts| && j < |run| && TakesOver(run[j], acts[j], k) && Overtaken(run, acts, acts[j].t, j, k)
  }

  lemma AnswerIsHeard(s: System, a: Action, k: Key)
    requires Answer(s, a, k).Some?
    ensures Mover(a).Some? && a.t < |s.pcs| && Heard(s.pcs[a.t]) == Some(k) && Answer(s, a, k).value == s.pcs[a.t].known
  {
  }

  lemma {:induction false} RunExact(run: seq<System>, acts: seq<Action>, j: nat, k: Key)
    requires Run(run, acts) && j < |run|
    requires forall m: nat :: m < j ==> Undisturbed(run[m], acts[m], k) && !TakesOld(run, acts, m, k)
    ensures Exact(run[j], k) && Told(run[j], k)
  {
    hide Step, Inv, Undisturbed, Overtaken, Answer, Heard;
    if j > 0 {
      var s, a := run[j - 1], acts[j - 1];
      RunExact(run, acts, j - 1, k);
      RunInv(run, acts, j - 1);
      if TakesOver(s, a, k) {
        AnswerIsHeard(s, a, k);
        CurrentIff(run, acts, a.t, j - 1, k);
      }
      ToldStep(s, a, run[j], k);
      ExactStep(s, a, run[j], k);
    }
  }

  /** While nothing else disturbs the key and no answer taken over was overtaken, the estimate a Take or Peek works
      with is the number of hits, less those that counted on a swept window. */
  lemma EstimateIsExact(run: seq<System>, acts: seq<Action>, j: nat, k: Key)
    requires Run(run, acts) && j < |run| && k in run[j].windows
    requires forall m: nat :: m < j ==> Undisturbed(run[m], acts[m], k) && !TakesOld(run, acts, m, k)
    ensures Live(run[j], k)
    ensures At(run[j], k).redisKnown + At(run[j], k).localDelta == BookOf(run[j], k).tally.hits - BookOf(run[j], k).tally.lost
  {
    hide Step, Inv, Undisturbed, TakesOld;
    RunExact(run, acts, j, k);
    Accounts(run, acts, j, k);
    UndisturbedSoFar(run, acts, j, k);
  }

  /** And right after a GET result is taken over the estimate is that number exactly if no EVAL overtook the result. */
  lemma ExactIffCurrent(run: seq<System>, acts: seq<Action>, j: nat, k: Key)
    requires Run(run, acts) && j < |acts| && TakesOver(run[j], acts[j], k) && k in run[j + 1].windows
    requires forall m: nat :: m <= j ==> Undisturbed(run[m], acts[m], k)
    ensures Live(run[j + 1], k)
    ensures At(run[j + 1], k).redisKnown + At(run[j + 1], k).localDelta == BookOf(run[j + 1], k).tally.hits - BookOf(run[j + 1], k).tally.lost
            <==> !Overtaken(run, acts, acts[j].t, j, k)
  {
    var s, a := run[j], acts[j];
    assert !Sends(s, a, k) && !Closes(s, a, k);
    hide Step, Inv, Overtaken, Heard, Undisturbed, DeltaFollows, ExpiryFollows;
    RunInv(run, acts, j);
    RunFollows(run, acts, j, k);
    IdleWindow(s, k);
    AnswerIsHeard(s, a, k);
    CurrentIff(run, acts, a.t, j, k);
    RedisStep(run, acts, j, k);
    Accounts(run, acts, j + 1, k);
    UndisturbedSoFar(run, acts, j + 1, k);
  }
}
