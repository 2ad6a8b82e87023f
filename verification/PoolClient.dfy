/** The pool's object: turns, the idle list and the closed flag, updated the way pool.go and Close of
    simpleredis.go do, against the functions of the transition system. */
module PoolClient {
  import opened Basics
  import opened PoolSystem

  class Conn {
    var open: bool
    var lastUsed: int

    constructor ()
      ensures open
    {
      open, lastUsed := true, 0;
    }
  }

  class Client {
    const poolSize: nat
    const maxIdleConns: nat
    const idleTimeout: int
    var turns: nat
    var overFrees: nat
    var closed: bool
    var idleConns: seq<Conn>

    /** A full semaphore and an empty list. */
    constructor (poolSize: nat, maxIdleConns: nat, idleTimeout: int)
      requires maxIdleConns <= poolSize
      ensures this.poolSize == poolSize && this.maxIdleConns == maxIdleConns && this.idleTimeout == idleTimeout
      ensures turns == poolSize && overFrees == 0 && !closed && idleConns == []
    {
      this.poolSize, this.maxIdleConns, this.idleTimeout := poolSize, maxIdleConns, idleTimeout;
      turns, overFrees, closed, idleConns := 0, 0, false, [];
      new;
      var i := 0;
      while i < poolSize
        invariant 0 <= i <= poolSize && turns == i && overFrees == 0 && !closed && idleConns == []
      {
        turns := turns + 1;
        i := i + 1;
      }
    }

    /** A turn comes back, or is counted as one too many. */
    method FreeInUseTurn()
      modifies this`turns, this`overFrees
      ensures old(turns) < poolSize ==> turns == old(turns) + 1 && overFrees == old(overFrees)
      ensures old(turns) >= poolSize ==> turns == old(turns) && overFrees == old(overFrees) + 1
    {
      if turns < poolSize { turns := turns + 1; } else { overFrees := overFrees + 1; }
    }

    ghost function Young(now: int): set<Conn>
      reads this, idleConns
    {
      set c | c in idleConns && now - c.lastUsed < idleTimeout
    }

    /** takeIdleConn: the list keeps its young sockets in order, and gives up the newest of them. */
    method TakeIdleConn(now: int) returns (reused: Conn?, stale: seq<Conn>, isClosed: bool)
      modifies this`idleConns
      ensures isClosed == closed
      ensures isClosed ==> reused == null && stale == [] && idleConns == old(idleConns)
      ensures !isClosed ==> stale == Keep(old(idleConns), old(Young(now)), false)
      ensures !isClosed ==> Keep(old(idleConns), old(Young(now)), true) == idleConns + if reused == null then [] else [reused]
      ensures !isClosed && reused == null ==> idleConns == []
    {
      if closed { return null, [], true; }
      ghost var young := Young(now);
      var survivors: seq<Conn> := [];
      stale := [];
      var i := 0;
      while i < |idleConns|
        invariant 0 <= i <= |idleConns|
        invariant survivors == Keep(idleConns[..i], young, true) && stale == Keep(idleConns[..i], young, false)
      {
        var conn := idleConns[i];
        assert idleConns[..i + 1][..i] == idleConns[..i];
        assert conn in young <==> now - conn.lastUsed < idleTimeout;
        if now - conn.lastUsed < idleTimeout { survivors := survivors + [conn]; } else { stale := stale + [conn]; }
        i := i + 1;
      }
      assert idleConns[..i] == idleConns;
      idleConns := survivors;
      reused, isClosed := null, false;
      var n := |idleConns|;
      if n > 0 {
        reused := idleConns[n - 1];
        idleConns := idleConns[..n - 1];
        assert survivors == idleConns + [reused];
      }
    }

    method ParkIdleConn(conn: Conn) returns (parked: bool)
      modifies this`idleConns
      ensures parked == (!closed && |old(idleConns)| < maxIdleConns)
      ensures idleConns == old(idleConns) + if parked then [conn] else []
    {
      if closed || |idleConns| >= maxIdleConns { return false; }
      idleConns := idleConns + [conn];
      parked := true;
    }

    /** release: the socket ends on the list, open, or closed; the turn comes back either way. */
    method Release(conn: Conn, reusable: bool, now: int)
      requires conn !in idleConns && (forall i, j :: 0 <= i < j < |idleConns| ==> idleConns[i] != idleConns[j])
      modifies this`idleConns, this`turns, this`overFrees, conn
      ensures idleConns == old(idleConns) + if reusable && !closed && |old(idleConns)| < maxIdleConns then [conn] else []
      ensures conn in idleConns ==> conn.open == old(conn.open) && conn.lastUsed == now
      ensures conn !in idleConns ==> !conn.open
      ensures forall i, j :: 0 <= i < j < |idleConns| ==> idleConns[i] != idleConns[j]
      ensures old(turns) < poolSize ==> turns == old(turns) + 1 && overFrees == old(overFrees)
    {
      if reusable { conn.lastUsed := now; }
      var parked := false;
      if reusable { parked := ParkIdleConn(conn); }
      if !parked { conn.open := false; }
      FreeInUseTurn();
    }

    /** Close: the winner of the flag empties the list and closes what was on it. */
    method Close()
      modifies this`closed, this`idleConns, idleConns
      ensures closed
      ensures !old(closed) ==> idleConns == [] && forall c :: c in old(idleConns) ==> !c.open
      ensures old(closed) ==> idleConns == old(idleConns) && forall c :: c in old(idleConns) ==> c.open == old(c.open)
    {
      if closed { return; }
      closed := true;
      var drained := idleConns;
      idleConns := [];
      var i := 0;
      while i < |drained|
        invariant 0 <= i <= |drained| && idleConns == [] && closed
        invariant forall j :: 0 <= j < i ==> !drained[j].open
      {
        drained[i].open := false;
        i := i + 1;
      }
    }
  }
}
