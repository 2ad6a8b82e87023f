/** Every action of the pool keeps sockets, watchers and turns in order. */
module PoolSteps {
  import opened Basics
  import opened PoolSystem
  import opened PoolInvariant

  // ---------------------------------------------------------------- watchers

  /** One change of watchers and of thread t's pc, sockets and lists untouched. */
  ghost predicate Rewatched(s: Pool, r: Pool, t: nat)
    requires On(s, t)
  {
    && |r.threads| == |s.threads| && r.threads == s.threads[t := s.threads[t].(pc := r.threads[t].pc)]
    && r.socks == s.socks && r.idle == s.idle && r.maxIdle == s.maxIdle && r.closed == s.closed && r.drained == s.drained
    && Uses(r.threads[t].pc) == Uses(PcOf(s, t)) && Bin(r.threads[t].pc) == Bin(PcOf(s, t))
    && !r.threads[t].pc.Releasing? && |s.watches| <= |r.watches|
    && (forall w :: 0 <= w < |s.watches| ==> s.watches[w].t != t ==> r.watches[w] == s.watches[w])
    && (forall w, k :: 0 <= w < |s.watches| ==> (Alarmed(s.watches[w], k) <==> Alarmed(r.watches[w], k)))
    && (forall w :: |s.watches| <= w < |r.watches| ==> r.watches[w].state == Registered)
  }

  lemma RewatchedSock(s: Pool, r: Pool, t: nat, k: nat)
    requires On(s, t) && Rewatched(s, r, t) && k < |s.socks| && SockOK(s, k)
    ensures SockOK(r, k)
  {
    SameAlarms(s, r, k);
  }

  lemma RewatchedPc(s: Pool, r: Pool, t: nat, u: nat)
    requires On(s, t) && Rewatched(s, r, t) && u < |s.threads| && u != t && PcOK(s, u, s.threads[u].pc)
    ensures PcOK(r, u, r.threads[u].pc)
  {
    var pc := s.threads[u].pc;
    if pc.Releasing? { SameAlarms(s, r, pc.sock); }
  }

  lemma RewatchedKeeps(s: Pool, r: Pool, t: nat)
    requires Places(s) && On(s, t) && Rewatched(s, r, t) && PcOK(r, t, PcOf(r, t))
    requires forall w :: 0 <= w < |r.watches| ==> WatchOK(r, r.watches[w], w)
    ensures Places(r)
  {
    hide SockOK, PcOK, WatchOK;
    forall k | 0 <= k < |r.socks| ensures SockOK(r, k) { RewatchedSock(s, r, t, k); }
    forall u | 0 <= u < |r.threads| ensures PcOK(r, u, r.threads[u].pc) { if u != t { RewatchedPc(s, r, t, u); } }
  }

  /** do registers its watcher. */
  lemma WatchKeeps(s: Pool, t: nat, pc: Pc)
    requires Places(s) && On(s, t) && (PcOf(s, t).Shaking? || PcOf(s, t).Holding?) && Watching(PcOf(s, t)).None?
    requires (pc.Shaking? || pc.Doing?) && pc.sock == PcOf(s, t).sock && pc.watch == Some(|s.watches|)
    ensures Places(Goto(Watched(s, t, PcOf(s, t).sock), t, pc))
  {
    hide SockOK, IdleOK;
    var r := Goto(Watched(s, t, PcOf(s, t).sock), t, pc);
    assert PcOK(s, t, PcOf(s, t));
    forall w | 0 <= w < |r.watches| ensures WatchOK(r, r.watches[w], w) { if w < |s.watches| { assert WatchOK(s, s.watches[w], w); } }
    RewatchedKeeps(s, r, t);
  }

  /** Watchers that have not started disturb no socket. */
  lemma SameAlarms(s: Pool, r: Pool, k: nat)
    requires |s.watches| <= |r.watches|
    requires forall w :: 0 <= w < |s.watches| ==> (Alarmed(s.watches[w], k) <==> Alarmed(r.watches[w], k))
    requires forall w :: |s.watches| <= w < |r.watches| ==> r.watches[w].state == Registered
    ensures Undisturbed(s, k) <==> Undisturbed(r, k)
  {
    if !Undisturbed(s, k) {
      var w :| 0 <= w < |s.watches| && Alarmed(s.watches[w], k);
      assert Alarmed(r.watches[w], k);
    }
  }

  /** Where a socket is does not depend on what is in its reader. */
  lemma ReadKeeps(s: Pool, k: nat, unread: nat)
    requires Places(s) && k < |s.socks|
    ensures Places(Read(s, k, unread))
  {
    var r := Read(s, k, unread);
    forall j | 0 <= j < |r.socks| ensures SockOK(r, j) { assert SockOK(s, j); assert Undisturbed(s, j) <==> Undisturbed(r, j); }
    forall u | 0 <= u < |r.threads| ensures PcOK(r, u, r.threads[u].pc) { assert PcOK(s, u, s.threads[u].pc); }
    forall w | 0 <= w < |r.watches| ensures WatchOK(r, r.watches[w], w) { assert WatchOK(s, s.watches[w], w); }
  }

  /** do stops its watcher on return. */
  lemma UnwatchKeeps(s: Pool, t: nat, pc: Pc)
    requires Places(s) && On(s, t) && (PcOf(s, t).Shaking? || PcOf(s, t).Doing?)
    requires (pc.Shaking? && pc.watch.None?) || pc.Spoiled? || pc.Checking?
    requires pc.sock == PcOf(s, t).sock
    ensures Places(Goto(Unwatched(s, PcOf(s, t).watch), t, pc))
  {
    hide SockOK, IdleOK, Unwatched;
    assert PcOK(s, t, PcOf(s, t));
    UnwatchedList(s, t, PcOf(s, t).watch);
    var r := Goto(Unwatched(s, PcOf(s, t).watch), t, pc);
    forall w | 0 <= w < |r.watches| ensures WatchOK(r, r.watches[w], w) { UnwatchOne(s, t, pc, w); }
    RewatchedKeeps(s, r, t);
  }

  lemma UnwatchOne(s: Pool, t: nat, pc: Pc, w: nat)
    requires On(s, t) && (PcOf(s, t).Shaking? || PcOf(s, t).Doing?) && w < |s.watches| && WatchOK(s, s.watches[w], w)
    ensures var r := Goto(Unwatched(s, PcOf(s, t).watch), t, pc); WatchOK(r, r.watches[w], w)
  {
  }

  lemma UnwatchedList(s: Pool, t: nat, watch: Option<nat>)
    requires watch.Some? ==> watch.value < |s.watches| && s.watches[watch.value].t == t
    ensures var r := Unwatched(s, watch);
            && r == s.(watches := r.watches) && |r.watches| == |s.watches|
            && (forall w :: 0 <= w < |s.watches| && watch != Some(w) ==> r.watches[w] == s.watches[w])
            && (forall w :: 0 <= w < |s.watches| ==> r.watches[w] == s.watches[w].(state := r.watches[w].state))
            && (watch.Some? ==> r.watches[watch.value].state != Registered)
            && (forall w, k :: 0 <= w < |s.watches| ==> (Alarmed(s.watches[w], k) <==> Alarmed(r.watches[w], k)))
  {
  }

  /** A watcher that starts belongs to a thread still inside do, so no other thread has the socket and
      the list does not hold it. */
  lemma StartKeeps(s: Pool, id: nat)
    requires Places(s) && id < |s.watches| && s.watches[id].state == Registered && On(s, s.watches[id].t) && s.threads[s.watches[id].t].fired
    ensures Places(s.(watches := s.watches[id := s.watches[id].(state := Started)]))
  {
    var r := s.(watches := s.watches[id := s.watches[id].(state := Started)]);
    var t, k0 := s.watches[id].t, s.watches[id].sock;
    assert WatchOK(s, s.watches[id], id);
    assert PcOK(s, t, PcOf(s, t));
    assert s.socks[k0].place == Owned(t);
    assert Alarmed(r.watches[id], k0);
    forall k | 0 <= k < |r.socks| ensures SockOK(r, k) { assert SockOK(s, k); if k != k0 { OtherAlarms(s, r, id, k); } }
    forall u | 0 <= u < |r.threads| ensures PcOK(r, u, r.threads[u].pc) {
      assert PcOK(s, u, s.threads[u].pc);
      if Uses(s.threads[u].pc).Some? && Uses(s.threads[u].pc).value != k0 { OtherAlarms(s, r, id, Uses(s.threads[u].pc).value); }
    }
    forall w | 0 <= w < |r.watches| ensures WatchOK(r, r.watches[w], w) { assert WatchOK(s, s.watches[w], w); }
  }

  lemma OtherAlarms(s: Pool, r: Pool, id: nat, k: nat)
    requires id < |s.watches| == |r.watches| && (forall w :: 0 <= w < |s.watches| && w != id ==> r.watches[w] == s.watches[w])
    requires s.watches[id].sock != k && r.watches[id].sock != k
    ensures Undisturbed(s, k) <==> Undisturbed(r, k)
  {
    forall w | 0 <= w < |s.watches| ensures Alarmed(s.watches[w], k) <==> Alarmed(r.watches[w], k) { }
    SameAlarms(s, r, k);
  }

  function Severed(s: Pool, id: nat): Pool
    requires id < |s.watches| && s.watches[id].sock < |s.socks|
  {
    Moved(s, s.watches[id].sock, s.socks[s.watches[id].sock].(open := false)).(watches := s.watches[id := s.watches[id].(state := Ran)])
  }

  lemma SeveredAlarms(s: Pool, id: nat, k: nat)
    requires id < |s.watches| && s.watches[id].state == Started && s.watches[id].sock < |s.socks|
    ensures Undisturbed(s, k) <==> Undisturbed(Severed(s, id), k)
    ensures !Undisturbed(Severed(s, id), s.watches[id].sock)
  {
    var r := Severed(s, id);
    assert Alarmed(r.watches[id], s.watches[id].sock);
    SameAlarms(s, r, k);
  }

  lemma SeveredSock(s: Pool, id: nat, k: nat)
    requires id < |s.watches| && s.watches[id].state == Started && WatchOK(s, s.watches[id], id) && k < |s.socks| && SockOK(s, k)
    ensures SockOK(Severed(s, id), k)
  {
    hide Undisturbed;
    SeveredAlarms(s, id, k);
  }

  lemma SeveredPc(s: Pool, id: nat, u: nat)
    requires id < |s.watches| && s.watches[id].state == Started && WatchOK(s, s.watches[id], id) && u < |s.threads| && PcOK(s, u, s.threads[u].pc)
    ensures PcOK(Severed(s, id), u, s.threads[u].pc)
  {
    hide Undisturbed;
    if s.threads[u].pc.Releasing? { SeveredAlarms(s, id, s.threads[u].pc.sock); }
  }

  lemma WatchCloseKeeps(s: Pool, id: nat)
    requires Places(s) && id < |s.watches| && s.watches[id].state == Started && s.watches[id].sock < |s.socks|
    ensures Places(Severed(s, id))
  {
    var r := Severed(s, id);
    assert WatchOK(s, s.watches[id], id);
    forall w | 0 <= w < |r.watches| ensures WatchOK(r, r.watches[w], w) { assert WatchOK(s, s.watches[w], w); }
    hide SockOK, PcOK, WatchOK;
    forall k | 0 <= k < |r.socks| ensures SockOK(r, k) { SeveredSock(s, id, k); }
    forall u | 0 <= u < |r.threads| ensures PcOK(r, u, r.threads[u].pc) { SeveredPc(s, id, u); }
  }

  /** The check after do: a socket that stays reusable has met no started watcher. */
  lemma CheckKeeps(s: Pool, t: nat, late: bool)
    requires Places(s) && On(s, t) && PcOf(s, t).Checking?
    ensures Places(Goto(s, t, Releasing(PcOf(s, t).sock, PcOf(s, t).reusable && !s.threads[t].fired && !late)))
  {
    var k := PcOf(s, t).sock;
    assert PcOK(s, t, PcOf(s, t));
    if !s.threads[t].fired {
      forall w | 0 <= w < |s.watches| ensures !Alarmed(s.watches[w], k) { assert WatchOK(s, s.watches[w], w); }
    }
    MoveKeeps(s, t, Goto(s, t, Releasing(k, PcOf(s, t).reusable && !s.threads[t].fired && !late)));
  }

  // ---------------------------------------------------------------- the idle list

  lemma ParkKeeps(s: Pool, t: nat)
    requires Places(s) && On(s, t) && PcOf(s, t).Releasing? && PcOf(s, t).reusable && PcOf(s, t).sock < |s.socks|
    ensures Places(Parked(s, t, PcOf(s, t).sock))
  {
    var k := PcOf(s, t).sock;
    assert PcOK(s, t, PcOf(s, t)) && SockOK(s, k);
    if s.closed || |s.idle| >= s.maxIdle {
      MoveKeeps(s, t, Goto(s, t, Dropping(k)));
    } else {
      hide SockOK, PcOK, WatchOK;
      var r := Parked(s, t, k);
      forall j | 0 <= j < |r.socks| ensures SockOK(r, j) { ParkSock(s, t, j); }
      forall u | 0 <= u < |r.threads| ensures PcOK(r, u, r.threads[u].pc) { ParkPc(s, t, u); }
      forall w | 0 <= w < |r.watches| ensures WatchOK(r, r.watches[w], w) { ParkWatch(s, t, w); }
    }
  }

  ghost predicate Parks(s: Pool, t: nat) {
    && On(s, t) && PcOf(s, t).Releasing? && PcOf(s, t).reusable && PcOf(s, t).sock < |s.socks|
    && !s.closed && |s.idle| < s.maxIdle && PcOK(s, t, PcOf(s, t))
  }

  lemma ParkSock(s: Pool, t: nat, j: nat)
    requires Parks(s, t) && j < |s.socks| && SockOK(s, j)
    ensures SockOK(Parked(s, t, PcOf(s, t).sock), j)
  {
    assert Undisturbed(s, j) <==> Undisturbed(Parked(s, t, PcOf(s, t).sock), j);
  }

  lemma ParkPc(s: Pool, t: nat, u: nat)
    requires Parks(s, t) && u < |s.threads| && PcOK(s, u, s.threads[u].pc)
    ensures var r := Parked(s, t, PcOf(s, t).sock); PcOK(r, u, r.threads[u].pc)
  {
  }

  lemma ParkWatch(s: Pool, t: nat, w: nat)
    requires Parks(s, t) && w < |s.watches| && WatchOK(s, s.watches[w], w)
    ensures var r := Parked(s, t, PcOf(s, t).sock); WatchOK(r, r.watches[w], w)
  {
    assert !Alarmed(s.watches[w], PcOf(s, t).sock);
  }

  lemma {:induction false} KeepMembers(list: seq<nat>, young: set<nat>, inside: bool, x: nat)
    ensures x in Keep(list, young, inside) <==> x in list && ((x in young) == inside)
  {
    if list != [] {
      var n := |list| - 1;
      KeepMembers(list[..n], young, inside, x);
      assert list == list[..n] + [list[n]];
    }
  }

  lemma {:induction false} KeepDistinct(list: seq<nat>, young: set<nat>, inside: bool)
    requires Distinct(list)
    ensures Distinct(Keep(list, young, inside)) && |Keep(list, young, inside)| <= |list|
  {
    if list != [] {
      var n := |list| - 1;
      KeepDistinct(list[..n], young, inside);
      KeepMembers(list[..n], young, inside, list[n]);
      var rest := Keep(list[..n], young, inside);
      forall i | 0 <= i < |rest| ensures rest[i] != list[n] { assert rest[i] in rest; }
    }
  }

  // ---------------------------------------------------------------- taking from the list

  /** What a take does to the list, in one place. */
  lemma TakenList(s: Pool, young: set<nat>)
    requires IdleOK(s)
    ensures var survivors, stale := Keep(s.idle, young, true), Keep(s.idle, young, false);
            && Distinct(survivors) && Distinct(stale) && |survivors| <= |s.idle|
            && (forall x :: x in survivors <==> x in s.idle && x in young)
            && (forall x :: x in stale <==> x in s.idle && x !in young)
  {
    KeepDistinct(s.idle, young, true);
    KeepDistinct(s.idle, young, false);
    forall x ensures x in Keep(s.idle, young, true) <==> x in s.idle && x in young { KeepMembers(s.idle, young, true, x); }
    forall x ensures x in Keep(s.idle, young, false) <==> x in s.idle && x !in young { KeepMembers(s.idle, young, false, x); }
  }

  /** Sockets leave the list for thread t: one into its use, others into its bin. */
  ghost predicate Leaves(s: Pool, r: Pool, t: nat)
    requires On(s, t)
  {
    && |r.threads| == |s.threads| && r.threads == s.threads[t := r.threads[t]] && r.threads[t].fired == s.threads[t].fired
    && r.watches == s.watches && r.maxIdle == s.maxIdle && |r.socks| == |s.socks|
    && Uses(PcOf(s, t)).None? && Bin(PcOf(s, t)) == [] && Watching(PcOf(s, t)).None? && Watching(PcOf(r, t)).None? && !PcOf(r, t).Releasing?
    && (forall k :: 0 <= k < |s.socks| ==> LeavesOne(s, r, t, k))
  }

  ghost predicate LeavesOne(s: Pool, r: Pool, t: nat, k: nat)
    requires On(r, t) && k < |s.socks| == |r.socks|
  {
    && r.socks[k].open == s.socks[k].open
    && (k !in s.idle ==> r.socks[k].place == s.socks[k].place && k !in r.idle && k !in Bin(PcOf(r, t)) && Uses(PcOf(r, t)) != Some(k))
    && (k in s.idle ==> r.socks[k].place == if k in r.idle then IdleList else if k in Bin(PcOf(r, t)) then Trash(t) else Owned(t))
    && (k in s.idle ==> k in r.idle || k in Bin(PcOf(r, t)) || Uses(PcOf(r, t)) == Some(k))
    && (Uses(PcOf(r, t)) == Some(k) ==> k !in r.idle && k !in Bin(PcOf(r, t)))
    && (k in Bin(PcOf(r, t)) ==> k !in r.idle)
  }

  lemma LeavesSock(s: Pool, r: Pool, t: nat, k: nat)
    requires On(s, t) && Leaves(s, r, t) && IdleOK(s) && k < |s.socks| && SockOK(s, k)
    ensures SockOK(r, k)
  {
    assert LeavesOne(s, r, t, k);
    assert Undisturbed(s, k) <==> Undisturbed(r, k);
    InList(s, k);
  }

  lemma LeavesPc(s: Pool, r: Pool, t: nat, u: nat)
    requires On(s, t) && Leaves(s, r, t) && IdleOK(s) && u < |s.threads| && u != t && PcOK(s, u, s.threads[u].pc)
    ensures PcOK(r, u, r.threads[u].pc)
  {
    var pc := s.threads[u].pc;
    forall k | 0 <= k < |s.socks| && (Uses(pc) == Some(k) || k in Bin(pc)) ensures r.socks[k].place == s.socks[k].place {
      assert LeavesOne(s, r, t, k);
      InList(s, k);
    }
    forall i | 0 <= i < |Bin(pc)| ensures r.socks[Bin(pc)[i]].place == Trash(u) { assert Bin(pc)[i] in Bin(pc); }
  }

  lemma LeavesWatch(s: Pool, r: Pool, t: nat, w: nat)
    requires On(s, t) && Leaves(s, r, t) && IdleOK(s) && w < |s.watches| && WatchOK(s, s.watches[w], w)
    requires s.watches[w].sock in s.idle ==> s.socks[s.watches[w].sock].place == IdleList
    ensures WatchOK(r, r.watches[w], w)
  {
    assert LeavesOne(s, r, t, s.watches[w].sock);
  }

  lemma InList(s: Pool, k: nat)
    requires IdleOK(s)
    ensures k in s.idle ==> k < |s.socks| && s.socks[k].place == IdleList
  {
  }

  lemma LeavesKeeps(s: Pool, r: Pool, t: nat)
    requires Places(s) && On(s, t) && Leaves(s, r, t) && IdleOK(r) && PcOK(r, t, PcOf(r, t))
    requires r.drained ==> r.closed && r.idle == []
    ensures Places(r)
  {
    hide SockOK, PcOK, WatchOK, LeavesOne, IdleOK;
    forall k | 0 <= k < |r.socks| ensures SockOK(r, k) { LeavesSock(s, r, t, k); }
    forall u | 0 <= u < |r.threads| ensures PcOK(r, u, r.threads[u].pc) { if u != t { LeavesPc(s, r, t, u); } }
    forall w | 0 <= w < |r.watches| ensures WatchOK(r, r.watches[w], w) {
      InList(s, s.watches[w].sock);
      LeavesWatch(s, r, t, w);
    }
  }

  lemma TakenShape(s: Pool, t: nat, young: set<nat>)
    requires On(s, t) && !s.closed
    ensures var r, survivors := Taken(s, t, young), Keep(s.idle, young, true);
            && On(r, t) && |r.socks| == |s.socks| && PcOf(r, t) == Sweeping(Keep(s.idle, young, false), Newest(survivors))
            && r.idle == (if survivors == [] then survivors else survivors[..|survivors| - 1])
  {
  }

  /** After a take that is not refused, who is where. */
  lemma TakenWhere(s: Pool, t: nat, young: set<nat>, k: nat)
    requires On(s, t) && PcOf(s, t).HasTurn? && !s.closed && IdleOK(s)
    ensures var r := Taken(s, t, young);
            && (k in r.idle <==> k in s.idle && k in young && Uses(PcOf(r, t)) != Some(k))
            && (k in Bin(PcOf(r, t)) <==> k in s.idle && k !in young)
            && (Uses(PcOf(r, t)) == Some(k) ==> k in s.idle && k in young)
  {
    hide Taken, Keep, IdleOK, Newest;
    TakenShape(s, t, young);
    TakenList(s, young);
    NewestApart(Keep(s.idle, young, true), k);
  }

  lemma TakenOne(s: Pool, t: nat, young: set<nat>, k: nat)
    requires On(s, t) && PcOf(s, t).HasTurn? && !s.closed && IdleOK(s) && k < |s.socks|
    ensures LeavesOne(s, Taken(s, t, young), t, k)
  {
    hide Keep, IdleOK;
    InList(s, k);
    TakenWhere(s, t, young, k);
    var r := Taken(s, t, young);
    assert r.socks[k] == if Uses(PcOf(r, t)) == Some(k) then s.socks[k].(place := Owned(t))
                         else if k in Bin(PcOf(r, t)) then s.socks[k].(place := Trash(t)) else s.socks[k];
  }

  lemma TakenIdle(s: Pool, t: nat, young: set<nat>)
    requires On(s, t) && PcOf(s, t).HasTurn? && !s.closed && IdleOK(s)
    ensures IdleOK(Taken(s, t, young))
  {
    var r := Taken(s, t, young);
    TakenList(s, young);
    forall i | 0 <= i < |r.idle| ensures r.idle[i] < |r.socks| && r.socks[r.idle[i]].place == IdleList {
      hide Keep, IdleOK, Taken;
      var k := r.idle[i];
      assert k in r.idle;
      TakenWhere(s, t, young, k);
      InList(s, k);
      TakenOne(s, t, young, k);
    }
  }

  lemma TakenPc(s: Pool, t: nat, young: set<nat>)
    requires On(s, t) && PcOf(s, t).HasTurn? && !s.closed && IdleOK(s)
    ensures var r := Taken(s, t, young); PcOK(r, t, PcOf(r, t))
  {
    hide Taken, Keep, IdleOK, Newest;
    var r := Taken(s, t, young);
    TakenShape(s, t, young);
    TakenList(s, young);
    var pc := PcOf(r, t);
    forall k | k in Bin(pc) || Uses(pc) == Some(k)
      ensures k < |r.socks| && r.socks[k].place == if k in Bin(pc) then Trash(t) else Owned(t)
    {
      TakenWhere(s, t, young, k);
      InList(s, k);
      TakenOne(s, t, young, k);
    }
    forall i | 0 <= i < |Bin(pc)| ensures Bin(pc)[i] < |r.socks| && r.socks[Bin(pc)[i]].place == Trash(t) { assert Bin(pc)[i] in Bin(pc); }
    if Uses(pc).Some? { TakenWhere(s, t, young, Uses(pc).value); }
  }

  lemma TakenKeeps(s: Pool, t: nat, young: set<nat>)
    requires Places(s) && On(s, t) && PcOf(s, t).HasTurn?
    ensures Places(Taken(s, t, young))
  {
    hide SockOK, WatchOK, PcOK, IdleOK, LeavesOne, Keep;
    var r := Taken(s, t, young);
    if s.closed {
      MoveKeeps(s, t, r);
    } else {
      forall k | 0 <= k < |s.socks| ensures LeavesOne(s, r, t, k) { TakenOne(s, t, young, k); }
      TakenIdle(s, t, young);
      TakenPc(s, t, young);
      LeavesKeeps(s, r, t);
    }
  }

  lemma DrainedKeeps(s: Pool, t: nat)
    requires Places(s) && On(s, t) && PcOf(s, t).Draining? && s.closed
    ensures Places(Drained(s, t))
  {
    hide SockOK, WatchOK;
    var r := Drained(s, t);
    forall k | 0 <= k < |s.socks| ensures LeavesOne(s, r, t, k) { InList(s, k); }
    LeavesKeeps(s, r, t);
  }

  lemma NewestApart(list: seq<nat>, x: nat)
    requires Distinct(list)
    ensures var rest := if list == [] then list else list[..|list| - 1]; x in rest <==> x in list && Some(x) != Newest(list)
    ensures Newest(list).Some? ==> Newest(list).value in list
  {
  }
}
