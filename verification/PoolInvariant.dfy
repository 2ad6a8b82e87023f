/** Who has which socket, and that every step of the pool keeps it straight. */
module PoolInvariant {
  import opened Basics
  import opened PoolSystem

  /** The socket the thread is using. */
  function Uses(pc: Pc): Option<nat> {
    match pc
    case Sweeping(_, got) => got
    case Shaking(k, _) => Some(k)
    case Spoiled(k) => Some(k)
    case Holding(k) => Some(k)
    case Doing(k, _) => Some(k)
    case Checking(k, _) => Some(k)
    case Releasing(k, _) => Some(k)
    case Dropping(k) => Some(k)
    case _ => None
  }

  /** The sockets the thread took off the idle list to close. */
  function Bin(pc: Pc): seq<nat> { if pc.Sweeping? then pc.stale else if pc.Emptying? then pc.list else [] }

  function Watching(pc: Pc): Option<nat> { if pc.Shaking? || pc.Doing? then pc.watch else None }

  predicate Alarmed(w: Watch, k: nat) { w.sock == k && (w.state == Started || w.state == Ran) }

  /** No watcher has started to close the socket. */
  ghost predicate Undisturbed(s: Pool, k: nat) { forall w :: 0 <= w < |s.watches| ==> !Alarmed(s.watches[w], k) }

  ghost predicate SockOK(s: Pool, k: nat)
    requires k < |s.socks|
  {
    match s.socks[k].place
    case IdleList => k in s.idle && s.socks[k].open
    case Owned(t) => On(s, t) && Uses(PcOf(s, t)) == Some(k) && (!s.socks[k].open ==> !Undisturbed(s, k))
    case Trash(t) => On(s, t) && k in Bin(PcOf(s, t))
    case Gone => !s.socks[k].open
  }

  ghost predicate IdleOK(s: Pool) {
    && Distinct(s.idle) && |s.idle| <= s.maxIdle
    && forall i :: 0 <= i < |s.idle| ==> s.idle[i] < |s.socks| && s.socks[s.idle[i]].place == IdleList
  }

  ghost predicate BinOK(s: Pool, t: nat, bin: seq<nat>) {
    Distinct(bin) && forall i :: 0 <= i < |bin| ==> bin[i] < |s.socks| && s.socks[bin[i]].place == Trash(t)
  }

  ghost predicate UseOK(s: Pool, t: nat, use: Option<nat>) {
    use.Some? ==> use.value < |s.socks| && s.socks[use.value].place == Owned(t)
  }

  ghost predicate PcOK(s: Pool, t: nat, pc: Pc) {
    && UseOK(s, t, Uses(pc)) && BinOK(s, t, Bin(pc))
    && (Watching(pc).Some? ==>
          && Watching(pc).value < |s.watches|
          && s.watches[Watching(pc).value].t == t && Some(s.watches[Watching(pc).value].sock) == Uses(pc)
          && s.watches[Watching(pc).value].state != Stopped)
    && (pc.Releasing? && pc.reusable ==> Undisturbed(s, pc.sock))
  }

  /** A watcher that has started has a fired context, and its socket is not idle and not in other hands. */
  ghost predicate WatchOK(s: Pool, w: Watch, id: nat) {
    && w.sock < |s.socks|
    && (w.state == Registered ==> On(s, w.t) && Watching(PcOf(s, w.t)) == Some(id))
    && (w.state == Started || w.state == Ran ==>
          && On(s, w.t) && s.threads[w.t].fired && s.socks[w.sock].place != IdleList
          && (s.socks[w.sock].place.Owned? ==> s.socks[w.sock].place.t == w.t))
  }

  ghost predicate Places(s: Pool) {
    && IdleOK(s) && (s.drained ==> s.closed && s.idle == [])
    && (forall k :: 0 <= k < |s.socks| ==> SockOK(s, k))
    && (forall t :: 0 <= t < |s.threads| ==> PcOK(s, t, s.threads[t].pc))
    && (forall w :: 0 <= w < |s.watches| ==> WatchOK(s, s.watches[w], w))
  }

  lemma PlacesInit(cap: nat, maxIdle: nat)
    ensures Places(Init(cap, maxIdle))
  {
  }

  // ---------------------------------------------------------------- a thread moves

  /** The thread's hold on sockets and watchers is the same. */
  ghost predicate SameHold(s: Pool, t: nat, pc: Pc)
    requires On(s, t)
  {
    Uses(pc) == Uses(PcOf(s, t)) && Bin(pc) == Bin(PcOf(s, t)) && Watching(pc) == Watching(PcOf(s, t))
  }

  /** The pool after only thread t's record and the counters changed. */
  ghost predicate OnlyThread(s: Pool, t: nat, r: Pool)
    requires On(s, t)
  {
    && |r.threads| == |s.threads| && r.threads == s.threads[t := r.threads[t]] && (s.threads[t].fired ==> r.threads[t].fired)
    && r.idle == s.idle && r.socks == s.socks && r.watches == s.watches && r.maxIdle == s.maxIdle
  }

  lemma MoveKeeps(s: Pool, t: nat, r: Pool)
    requires Places(s) && On(s, t) && OnlyThread(s, t, r) && SameHold(s, t, PcOf(r, t))
    requires r.drained ==> r.closed && r.idle == []
    requires PcOf(r, t).Releasing? && PcOf(r, t).reusable ==> Undisturbed(s, PcOf(r, t).sock)
    ensures Places(r)
  {
    forall k | 0 <= k < |r.socks| ensures SockOK(r, k) { assert SockOK(s, k); assert Undisturbed(s, k) <==> Undisturbed(r, k); }
    forall u | 0 <= u < |r.threads| ensures PcOK(r, u, r.threads[u].pc) { assert PcOK(s, u, s.threads[u].pc); }
    forall w | 0 <= w < |r.watches| ensures WatchOK(r, r.watches[w], w) { assert WatchOK(s, s.watches[w], w); }
  }

  lemma SpawnKeeps(s: Pool, th: Thread)
    requires Places(s) && (th.pc.Ready? || th.pc.CloseCall?)
    ensures Places(s.(threads := s.threads + [th]))
  {
    var r := s.(threads := s.threads + [th]);
    forall k | 0 <= k < |r.socks| ensures SockOK(r, k) { assert SockOK(s, k); assert Undisturbed(s, k) <==> Undisturbed(r, k); }
    forall u | 0 <= u < |r.threads| ensures PcOK(r, u, r.threads[u].pc) { if u < |s.threads| { assert PcOK(s, u, s.threads[u].pc); } }
    forall w | 0 <= w < |r.watches| ensures WatchOK(r, r.watches[w], w) { assert WatchOK(s, s.watches[w], w); }
  }

  // ---------------------------------------------------------------- a thread closes a socket of its own

  /** The thread lets go of socket k, from its use or from the front of its bin. */
  ghost predicate LetsGo(s: Pool, t: nat, k: nat, pc: Pc) {
    && On(s, t) && k < |s.socks| && Watching(PcOf(s, t)).None? && Watching(pc).None? && !pc.Releasing?
    && (|| (Uses(PcOf(s, t)) == Some(k) && Uses(pc).None? && Bin(pc) == [] && Bin(PcOf(s, t)) == [])
        || (Bin(PcOf(s, t)) != [] && Bin(PcOf(s, t))[0] == k && Bin(pc) == Bin(PcOf(s, t))[1..] && Uses(pc) == Uses(PcOf(s, t))))
  }

  lemma CloseSock(s: Pool, t: nat, k: nat, pc: Pc, j: nat)
    requires LetsGo(s, t, k, pc) && PcOK(s, t, PcOf(s, t)) && j < |s.socks| && SockOK(s, j)
    ensures SockOK(Goto(Closed(s, k), t, pc), j)
  {
    var r := Goto(Closed(s, k), t, pc);
    assert Undisturbed(s, j) <==> Undisturbed(r, j);
  }

  lemma ClosePc(s: Pool, t: nat, k: nat, pc: Pc, u: nat)
    requires LetsGo(s, t, k, pc) && PcOK(s, t, PcOf(s, t)) && u < |s.threads| && PcOK(s, u, s.threads[u].pc)
    ensures var r := Goto(Closed(s, k), t, pc); PcOK(r, u, r.threads[u].pc)
  {
  }

  lemma CloseWatch(s: Pool, t: nat, k: nat, pc: Pc, w: nat)
    requires LetsGo(s, t, k, pc) && w < |s.watches| && WatchOK(s, s.watches[w], w)
    ensures var r := Goto(Closed(s, k), t, pc); WatchOK(r, r.watches[w], w)
  {
  }

  lemma CloseKeeps(s: Pool, t: nat, k: nat, pc: Pc)
    requires Places(s) && LetsGo(s, t, k, pc)
    ensures Places(Goto(Closed(s, k), t, pc))
  {
    var r := Goto(Closed(s, k), t, pc);
    assert PcOK(s, t, PcOf(s, t));
    assert s.socks[k].place == Owned(t) || s.socks[k].place == Trash(t);
    hide SockOK, PcOK, WatchOK;
    forall j | 0 <= j < |r.socks| ensures SockOK(r, j) { CloseSock(s, t, k, pc, j); }
    forall u | 0 <= u < |r.threads| ensures PcOK(r, u, r.threads[u].pc) { ClosePc(s, t, k, pc, u); }
    forall w | 0 <= w < |r.watches| ensures WatchOK(r, r.watches[w], w) { CloseWatch(s, t, k, pc, w); }
  }

  lemma DialedKeeps(s: Pool, t: nat)
    requires Places(s) && On(s, t) && PcOf(s, t).Dialing?
    ensures Places(Goto(s.(socks := s.socks + [Sock(true, Owned(t), 0)]), t, Shaking(|s.socks|, None)))
  {
    var r := Goto(s.(socks := s.socks + [Sock(true, Owned(t), 0)]), t, Shaking(|s.socks|, None));
    forall j | 0 <= j < |r.socks| ensures SockOK(r, j) {
      if j < |s.socks| { assert SockOK(s, j); assert Undisturbed(s, j) <==> Undisturbed(r, j); }
    }
    forall u | 0 <= u < |r.threads| ensures PcOK(r, u, r.threads[u].pc) { assert PcOK(s, u, s.threads[u].pc); }
    forall w | 0 <= w < |r.watches| ensures WatchOK(r, r.watches[w], w) { assert WatchOK(s, s.watches[w], w); }
  }
}
