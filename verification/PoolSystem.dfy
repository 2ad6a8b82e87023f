/** The socket pool of simpleredis (pool.go, the command path of resp.go and commands_exec.go, and Close
    of simpleredis.go) as a transition system. One action is one stretch under the idle mutex, one
    operation on the turn semaphore, one socket operation, or one thing a context does on its own. */
module PoolSystem {
  import opened Basics

  /** Where a socket belongs: on the idle list, to the thread using it, to the thread that took it off
      the list to close it, or nowhere. */
  datatype Place = IdleList | Owned(t: nat) | Trash(t: nat) | Gone

  /** `unread` counts reply bytes that are in the socket's reader and that no command has consumed. */
  datatype Sock = Sock(open: bool, place: Place, unread: nat)

  /** A context.AfterFunc watcher that closes the socket when the thread's context is done. */
  datatype WatchState = Registered | Started | Ran | Stopped
  datatype Watch = Watch(t: nat, sock: nat, state: WatchState)

  datatype Pc =
    | Ready                                             // before waiting for a turn
    | HasTurn                                           // borrowSocket after its wait
    | Sweeping(stale: seq<nat>, got: Option<nat>)       // closing stale sockets, then uses `got` or dials
    | Dialing
    | Shaking(sock: nat, watch: Option<nat>)            // AUTH and SELECT on a new socket
    | Spoiled(sock: nat)                                // the handshake failed
    | Holding(sock: nat)                                // has its socket, before do
    | Doing(sock: nat, watch: Option<nat>)
    | Checking(sock: nat, reusable: bool)               // do has returned and stopped its watcher
    | Releasing(sock: nat, reusable: bool)
    | Dropping(sock: nat)                               // release closes the socket
    | Freeing                                           // gives its turn back
    | CloseCall
    | Draining                                          // won the closed flag, before taking the list
    | Emptying(list: seq<nat>)
    | Over

  /** A command's thread; its context and skipIdle last over all its attempts. */
  datatype Thread = Thread(pc: Pc, fired: bool, skipIdle: bool, fromIdle: bool)

  datatype Pool = Pool(cap: nat, maxIdle: nat, free: nat, overFrees: nat, closed: bool, drained: bool,
                       idle: seq<nat>, socks: seq<Sock>, watches: seq<Watch>, threads: seq<Thread>)

  datatype Action =
    | Command
    | CloseClient
    | Acquire(t: nat)
    | GiveUp(t: nat)                                    // the wait for a turn timed out, or closed
    | TakeIdle(t: nat, young: set<nat>)
    | SkipIdle(t: nat)
    | SweepOne(t: nat)
    | SweepDone(t: nat)
    | DialFails(t: nat)
    | Dialed(t: nat)
    | Shake(t: nat)
    | ShakeEnds(t: nat, ok: bool, unread: nat)
    | ShakeDone(t: nat)
    | Spoil(t: nat)
    | Begin(t: nat)
    | DoEnds(t: nat, clean: bool, unread: nat)
    | Check(t: nat, late: bool)
    | Park(t: nat)
    | Drop(t: nat)
    | Free(t: nat, again: bool, skip: bool)
    | Fire(t: nat)
    | WatchStarts(w: nat)
    | WatchCloses(w: nat)
    | Swap(t: nat)
    | Drain(t: nat)
    | EmptyOne(t: nat)
    | EmptyDone(t: nat)

  function Init(cap: nat, maxIdle: nat): Pool { Pool(cap, maxIdle, cap, 0, false, false, [], [], [], []) }

  // ---------------------------------------------------------------- parts

  predicate On(s: Pool, t: nat) { t < |s.threads| }

  function PcOf(s: Pool, t: nat): Pc
    requires On(s, t)
  {
    s.threads[t].pc
  }

  function Goto(s: Pool, t: nat, pc: Pc): Pool
    requires On(s, t)
  {
    s.(threads := s.threads[t := s.threads[t].(pc := pc)])
  }

  function Moved(s: Pool, k: nat, sock: Sock): Pool
    requires k < |s.socks|
  {
    s.(socks := s.socks[k := sock])
  }

  /** The sockets of the list, in order, that are in (or not in) the set. */
  function Keep<T(==)>(list: seq<T>, young: set<T>, inside: bool): seq<T> {
    if list == [] then []
    else Keep(list[..|list| - 1], young, inside) + if (list[|list| - 1] in young) == inside then [list[|list| - 1]] else []
  }

  /** The newest survivor, if there is one. */
  function Newest(list: seq<nat>): Option<nat> { if list == [] then None else Some(list[|list| - 1]) }

  /** takeIdleConn: stale sockets leave the list, and so does the newest survivor. */
  function Taken(s: Pool, t: nat, young: set<nat>): Pool
    requires On(s, t)
  {
    if s.closed then Goto(s, t, Freeing)
    else
      var survivors := Keep(s.idle, young, true);
      var stale := Keep(s.idle, young, false);
      var got := Newest(survivors);
      Goto(s.(idle := if got.None? then survivors else survivors[..|survivors| - 1],
              socks := seq(|s.socks|, k requires 0 <= k < |s.socks| =>
                         if got == Some(k) then s.socks[k].(place := Owned(t))
                         else if k in stale then s.socks[k].(place := Trash(t)) else s.socks[k]),
              threads := s.threads[t := s.threads[t].(fromIdle := got.Some?)]),
           t, Sweeping(stale, got))
  }

  function Watched(s: Pool, t: nat, sock: nat): Pool { s.(watches := s.watches + [Watch(t, sock, Registered)]) }

  /** The stop function of context.AfterFunc: a watcher that has not started never will. */
  function Unwatched(s: Pool, watch: Option<nat>): Pool {
    if watch.Some? && watch.value < |s.watches| && s.watches[watch.value].state == Registered
    then s.(watches := s.watches[watch.value := s.watches[watch.value].(state := Stopped)]) else s
  }

  function Closed(s: Pool, k: nat): Pool
    requires k < |s.socks|
  {
    Moved(s, k, s.socks[k].(open := false, place := Gone))
  }

  /** What a do leaves in the reader. One that finds leftover bytes writes nothing and fails. */
  function Read(s: Pool, k: nat, unread: nat): Pool
    requires k < |s.socks|
  {
    Moved(s, k, s.socks[k].(unread := unread))
  }

  predicate Reads(s: Pool, k: nat, ok: bool, unread: nat) {
    k < |s.socks| && (s.socks[k].unread != 0 ==> !ok && unread == s.socks[k].unread)
  }

  /** parkIdleConn */
  function Parked(s: Pool, t: nat, k: nat): Pool
    requires On(s, t) && k < |s.socks|
  {
    if s.closed || |s.idle| >= s.maxIdle then Goto(s, t, Dropping(k))
    else Goto(Moved(s, k, s.socks[k].(place := IdleList)).(idle := s.idle + [k]), t, Freeing)
  }

  /** freeInUseTurn */
  function Freed(s: Pool): Pool {
    if s.free < s.cap then s.(free := s.free + 1) else s.(overFrees := s.overFrees + 1)
  }

  function Drained(s: Pool, t: nat): Pool
    requires On(s, t)
  {
    Goto(s.(idle := [], drained := true,
            socks := seq(|s.socks|, k requires 0 <= k < |s.socks| =>
                       if k in s.idle then s.socks[k].(place := Trash(t)) else s.socks[k])),
         t, Emptying(s.idle))
  }

  // ---------------------------------------------------------------- steps

  predicate Step(s: Pool, a: Action, r: Pool) {
    match a
    case Command => r == s.(threads := s.threads + [Thread(Ready, false, false, false)])
    case CloseClient => r == s.(threads := s.threads + [Thread(CloseCall, false, false, false)])
    case Acquire(t) => On(s, t) && PcOf(s, t).Ready? && s.free > 0 && r == Goto(s, t, HasTurn).(free := s.free - 1)
    case GiveUp(t) => On(s, t) && PcOf(s, t).Ready? && r == Goto(s, t, Over)
    case TakeIdle(t, young) => On(s, t) && PcOf(s, t).HasTurn? && !s.threads[t].skipIdle && r == Taken(s, t, young)
    case SkipIdle(t) => On(s, t) && PcOf(s, t).HasTurn? && s.threads[t].skipIdle
                        && r == Goto(s.(threads := s.threads[t := s.threads[t].(fromIdle := false)]), t, if s.closed then Freeing else Dialing)
    case SweepOne(t) => On(s, t) && PcOf(s, t).Sweeping? && PcOf(s, t).stale != [] && PcOf(s, t).stale[0] < |s.socks|
                        && r == Goto(Closed(s, PcOf(s, t).stale[0]), t, PcOf(s, t).(stale := PcOf(s, t).stale[1..]))
    case SweepDone(t) => On(s, t) && PcOf(s, t).Sweeping? && PcOf(s, t).stale == []
                         && r == Goto(s, t, if PcOf(s, t).got.Some? then Holding(PcOf(s, t).got.value) else Dialing)
    case DialFails(t) => On(s, t) && PcOf(s, t).Dialing? && r == Goto(s, t, Freeing)
    case Dialed(t) => On(s, t) && PcOf(s, t).Dialing?
                      && r == Goto(s.(socks := s.socks + [Sock(true, Owned(t), 0)]), t, Shaking(|s.socks|, None))
    case Shake(t) => On(s, t) && PcOf(s, t).Shaking? && PcOf(s, t).watch.None?
                     && r == Goto(Watched(s, t, PcOf(s, t).sock), t, Shaking(PcOf(s, t).sock, Some(|s.watches|)))
    case ShakeEnds(t, ok, unread) => On(s, t) && PcOf(s, t).Shaking? && PcOf(s, t).watch.Some? && Reads(s, PcOf(s, t).sock, ok, unread)
                                     && r == Goto(Unwatched(Read(s, PcOf(s, t).sock, unread), PcOf(s, t).watch),
                                                  t, if ok then Shaking(PcOf(s, t).sock, None) else Spoiled(PcOf(s, t).sock))
    case ShakeDone(t) => On(s, t) && PcOf(s, t).Shaking? && PcOf(s, t).watch.None? && r == Goto(s, t, Holding(PcOf(s, t).sock))
    case Spoil(t) => On(s, t) && PcOf(s, t).Spoiled? && PcOf(s, t).sock < |s.socks|
                     && r == Goto(Closed(s, PcOf(s, t).sock), t, Freeing)
    case Begin(t) => On(s, t) && PcOf(s, t).Holding?
                     && r == Goto(Watched(s, t, PcOf(s, t).sock), t, Doing(PcOf(s, t).sock, Some(|s.watches|)))
    case DoEnds(t, clean, unread) => On(s, t) && PcOf(s, t).Doing? && Reads(s, PcOf(s, t).sock, clean, unread)
                                     && r == Goto(Unwatched(Read(s, PcOf(s, t).sock, unread), PcOf(s, t).watch),
                                                  t, Checking(PcOf(s, t).sock, clean && unread == 0))
    case Check(t, late) => On(s, t) && PcOf(s, t).Checking?
                           && r == Goto(s, t, Releasing(PcOf(s, t).sock, PcOf(s, t).reusable && !s.threads[t].fired && !late))
    case Park(t) => On(s, t) && PcOf(s, t).Releasing? && PcOf(s, t).sock < |s.socks|
                    && r == (if PcOf(s, t).reusable then Parked(s, t, PcOf(s, t).sock) else Goto(s, t, Dropping(PcOf(s, t).sock)))
    case Drop(t) => On(s, t) && PcOf(s, t).Dropping? && PcOf(s, t).sock < |s.socks|
                    && r == Goto(Closed(s, PcOf(s, t).sock), t, Freeing)
    case Free(t, again, skip) => On(s, t) && PcOf(s, t).Freeing? && (skip ==> s.threads[t].fromIdle)
                                 && r == Goto(Freed(s).(threads := s.threads[t := s.threads[t].(skipIdle := s.threads[t].skipIdle || skip)]),
                                              t, if again then Ready else Over)
    case Fire(t) => On(s, t) && r == s.(threads := s.threads[t := s.threads[t].(fired := true)])
    case WatchStarts(w) => w < |s.watches| && s.watches[w].state == Registered && On(s, s.watches[w].t) && s.threads[s.watches[w].t].fired
                           && r == s.(watches := s.watches[w := s.watches[w].(state := Started)])
    case WatchCloses(w) => w < |s.watches| && s.watches[w].state == Started && s.watches[w].sock < |s.socks|
                           && r == Moved(s, s.watches[w].sock, s.socks[s.watches[w].sock].(open := false))
                                     .(watches := s.watches[w := s.watches[w].(state := Ran)])
    case Swap(t) => On(s, t) && PcOf(s, t).CloseCall?
                    && r == (if s.closed then Goto(s, t, Over) else Goto(s.(closed := true), t, Draining))
    case Drain(t) => On(s, t) && PcOf(s, t).Draining? && r == Drained(s, t)
    case EmptyOne(t) => On(s, t) && PcOf(s, t).Emptying? && PcOf(s, t).list != [] && PcOf(s, t).list[0] < |s.socks|
                        && r == Goto(Closed(s, PcOf(s, t).list[0]), t, Emptying(PcOf(s, t).list[1..]))
    case EmptyDone(t) => On(s, t) && PcOf(s, t).Emptying? && PcOf(s, t).list == [] && r == Goto(s, t, Over)
  }

  ghost predicate Run(run: seq<Pool>, acts: seq<Action>, cap: nat, maxIdle: nat) {
    && |run| == |acts| + 1 && run[0] == Init(cap, maxIdle)
    && forall i :: 0 <= i < |acts| ==> Step(run[i], acts[i], run[i + 1])
  }
}
