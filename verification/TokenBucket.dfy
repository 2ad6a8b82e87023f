/** The token bucket step of tokenbucket/clock.go and tokenbucket/lua.go over exact arithmetic, and
    what it bounds over any run of calls. Times are whole microseconds unless named otherwise. */
module TokenBucket {
  import opened Basics

  /** `limit` is tokens per microsecond; `maxDelayNanos` the delay a caller accepts. */
  datatype Clock = Clock(limit: real, burst: int, maxDelayNanos: int)

  predicate Sound(c: Clock) { c.limit > 0.0 && c.burst >= 1 && c.maxDelayNanos >= 0 }

  datatype Bucket = Bucket(tokens: real, last: int)

  function Min(a: real, b: real): real { if a <= b then a else b }

  function MaxDelay(c: Clock): int { c.maxDelayNanos / 1000 }

  function Full(c: Clock, now: int): Bucket { Bucket(c.burst as real, now) }

  /** The tokens a stretch of microseconds refills. */
  function Worth(c: Clock, micros: int): real { c.limit * (micros as real) }

  // ---------------------------------------------------------------- the step

  /** What the bucket holds by `now`; a clock that went backward adds nothing. */
  function Refilled(c: Clock, b: Bucket, now: int): real {
    Min(b.tokens + Worth(c, if now > b.last then now - b.last else 0), c.burst as real)
  }

  /** How long until the bucket would have paid for this call. */
  function Wait(c: Clock, b: Bucket, now: int): real
    requires c.limit > 0.0
  {
    var after := Refilled(c, b, now) - 1.0;
    if after < 0.0 then -after / c.limit else 0.0
  }

  /** Whether the call costs a token. */
  predicate Spends(c: Clock, b: Bucket, now: int)
    requires c.limit > 0.0
  {
    Wait(c, b, now) <= MaxDelay(c) as real
  }

  function Next(c: Clock, b: Bucket, now: int): Bucket
    requires c.limit > 0.0
  {
    Bucket(if Spends(c, b, now) then Refilled(c, b, now) - 1.0 else Refilled(c, b, now),
           if now > b.last then now else b.last)
  }

  /** consumeOne: in place, step by step, with a refund. */
  method ConsumeOne(c: Clock, b: Bucket, now: int) returns (r: Bucket, wait: real)
    requires Sound(c)
    ensures r == Next(c, b, now) && wait == Wait(c, b, now)
  {
    var tokens, last := b.tokens, b.last;
    var previousLast := last;
    if now < last { last := now; }
    var elapsed := (now - last) as real;
    tokens := tokens + c.limit * elapsed;
    if tokens > c.burst as real { tokens := c.burst as real; }
    tokens := tokens - 1.0;
    wait := 0.0;
    if tokens < 0.0 {
      wait := -tokens / c.limit;
      if wait > MaxDelay(c) as real {
        tokens := tokens + 1.0;
        if tokens > c.burst as real { tokens := c.burst as real; }
      } else {
        assert wait >= 0.0;
      }
    } else {
      assert MaxDelay(c) >= 0;
    }
    var persistLast := now;
    if previousLast > persistLast { persistLast := previousLast; }
    r := Bucket(tokens, persistLast);
  }

  /** The Redis script: a missing hash is a full bucket, and the hash it writes is the next bucket. */
  method AllowScript(c: Clock, hash: Option<Bucket>, t: int) returns (stored: Bucket, wait: real)
    requires Sound(c)
    ensures var b := if hash.Some? then hash.value else Full(c, t);
            stored == Next(c, b, t) && wait == Wait(c, b, t)
  {
    var bucketTokens, bucketLast := 0.0, 0;
    if hash.Some? { bucketTokens, bucketLast := hash.value.tokens, hash.value.last; }
    else { bucketTokens, bucketLast := c.burst as real, t; }
    var last := bucketLast;
    if t < last { last := t; }
    var delta := c.limit * ((t - last) as real);
    var tokens := Min(bucketTokens + delta, c.burst as real) - 1.0;
    wait := 0.0;
    if tokens < 0.0 {
      wait := (tokens * -1.0) / c.limit;
      if wait > MaxDelay(c) as real { tokens := Min(tokens + 1.0, c.burst as real); }
    }
    var persistLast := bucketLast;
    if t > persistLast { persistLast := t; }
    stored := Bucket(tokens, persistLast);
  }

  // ---------------------------------------------------------------- runs

  /** Never over the burst, never deeper in debt than the delay allows. */
  predicate InBounds(c: Clock, b: Bucket) {
    -Worth(c, MaxDelay(c)) <= b.tokens <= c.burst as real
  }

  lemma FullInBounds(c: Clock, now: int)
    requires Sound(c)
    ensures InBounds(c, Full(c, now))
  {
    assert c.limit * (MaxDelay(c) as real) >= 0.0;
  }

  lemma RefillHelps(c: Clock, b: Bucket, now: int)
    requires Sound(c) && InBounds(c, b)
    ensures b.tokens <= Refilled(c, b, now) <= c.burst as real
    ensures Refilled(c, b, now) <= b.tokens + Worth(c, Next(c, b, now).last - b.last)
  {
    var gain := (if now > b.last then now - b.last else 0) as real;
    assert c.limit * gain >= 0.0;
  }

  lemma NextInBounds(c: Clock, b: Bucket, now: int)
    requires Sound(c) && InBounds(c, b)
    ensures InBounds(c, Next(c, b, now)) && Next(c, b, now).last >= b.last
  {
    RefillHelps(c, b, now);
    var after := Refilled(c, b, now) - 1.0;
    if Spends(c, b, now) && after < 0.0 {
      var d := MaxDelay(c) as real;
      assert -after / c.limit <= d;
      Times(c.limit, -after, d);
    } else {
      FullInBounds(c, now);
    }
  }

  lemma Times(l: real, x: real, d: real)
    requires l > 0.0 && x / l <= d
    ensures x <= l * d
  {
    assert x == l * (x / l);
  }

  /** The bucket after a run of calls at the given clock readings. */
  function After(c: Clock, b: Bucket, nows: seq<int>): Bucket
    requires c.limit > 0.0
  {
    if nows == [] then b else Next(c, After(c, b, nows[..|nows| - 1]), nows[|nows| - 1])
  }

  /** How many of the calls cost a token. */
  function Spent(c: Clock, b: Bucket, nows: seq<int>): nat
    requires c.limit > 0.0
  {
    if nows == [] then 0
    else
      var n := |nows| - 1;
      Spent(c, b, nows[..n]) + if Spends(c, After(c, b, nows[..n]), nows[n]) then 1 else 0
  }

  /** What the burst cap cut off along the way. */
  function Overflow(c: Clock, b: Bucket, nows: seq<int>): real
    requires c.limit > 0.0
  {
    if nows == [] then 0.0
    else
      var n := |nows| - 1;
      var was := After(c, b, nows[..n]);
      Overflow(c, b, nows[..n]) + was.tokens + Worth(c, Next(c, was, nows[n]).last - was.last) - Refilled(c, was, nows[n])
  }

  /** Tokens are conserved: what was there and what the clock's advance added is what is left, what
      was spent and what the cap cut off. */
  lemma {:induction false} TokensConserved(c: Clock, b: Bucket, nows: seq<int>)
    requires Sound(c)
    ensures After(c, b, nows).tokens + (Spent(c, b, nows) as real) + Overflow(c, b, nows)
            == b.tokens + Worth(c, After(c, b, nows).last - b.last)
  {
    if nows != [] {
      var n := |nows| - 1;
      hide Next, Refilled, Spends, Worth;
      TokensConserved(c, b, nows[..n]);
      var was := After(c, b, nows[..n]);
      var now := After(c, b, nows);
      OneCall(c, was, nows[n]);
      Advances(c, b.last, was.last, now.last);
    }
  }

  lemma OneCall(c: Clock, b: Bucket, now: int)
    requires Sound(c)
    ensures Next(c, b, now).tokens + (if Spends(c, b, now) then 1.0 else 0.0) == Refilled(c, b, now)
  {
    hide Refilled;
  }

  lemma Advances(c: Clock, from: int, mid: int, to: int)
    ensures Worth(c, to - from) == Worth(c, mid - from) + Worth(c, to - mid)
  {
    Distribute(c.limit, (mid - from) as real, (to - mid) as real);
    assert (to - from) as real == (mid - from) as real + (to - mid) as real;
  }

  lemma Distribute(l: real, x: real, y: real)
    ensures l * (x + y) == l * x + l * y
  {
  }

  lemma {:induction false} RunInBounds(c: Clock, b: Bucket, nows: seq<int>)
    requires Sound(c) && InBounds(c, b)
    ensures InBounds(c, After(c, b, nows)) && After(c, b, nows).last >= b.last && Overflow(c, b, nows) >= 0.0
  {
    if nows != [] {
      var n := |nows| - 1;
      RunInBounds(c, b, nows[..n]);
      NextInBounds(c, After(c, b, nows[..n]), nows[n]);
      RefillHelps(c, After(c, b, nows[..n]), nows[n]);
    }
  }

  /** Over any run, with any clock readings, the calls that cost a token number at most the burst plus
      what the clock's net advance and the accepted delay are worth. */
  lemma SpentIsBounded(c: Clock, b: Bucket, nows: seq<int>)
    requires Sound(c) && InBounds(c, b)
    ensures Spent(c, b, nows) as real
            <= (c.burst as real) + Worth(c, After(c, b, nows).last - b.last) + Worth(c, MaxDelay(c))
    ensures After(c, b, nows).last >= b.last
  {
    TokensConserved(c, b, nows);
    RunInBounds(c, b, nows);
  }

  /** The last time a bucket has seen is the latest of its start and every reading. */
  lemma {:induction false} LastIsLatest(c: Clock, b: Bucket, nows: seq<int>)
    requires Sound(c)
    ensures After(c, b, nows).last == b.last || After(c, b, nows).last in nows
    ensures After(c, b, nows).last >= b.last && forall i :: 0 <= i < |nows| ==> nows[i] <= After(c, b, nows).last
  {
    if nows != [] {
      var n := |nows| - 1;
      LastIsLatest(c, b, nows[..n]);
      forall i | 0 <= i < n ensures nows[i] <= After(c, b, nows).last { assert nows[..n][i] == nows[i]; }
    }
  }

  // ---------------------------------------------------------------- allowed against spent

  /** waitDuration in nanoseconds: the fraction is cut off. */
  function WaitNanos(waitMicro: real): int { if waitMicro <= 0.0 then 0 else (waitMicro * 1000.0).Floor }

  predicate Allowed(c: Clock, wait: real) { WaitNanos(wait) <= c.maxDelayNanos }

  /** A call that cost a token is allowed. */
  lemma SpentIsAllowed(c: Clock, b: Bucket, now: int)
    requires Sound(c) && Spends(c, b, now)
    ensures Allowed(c, Wait(c, b, now))
  {
    var w, d := Wait(c, b, now), MaxDelay(c);
    assert w * 1000.0 <= (d as real) * 1000.0;
    assert d * 1000 <= c.maxDelayNanos;
  }

  /** A denied call takes nothing: the bucket only gains what the clock added. */
  lemma DeniedTakesNothing(c: Clock, b: Bucket, now: int)
    requires Sound(c) && InBounds(c, b) && !Allowed(c, Wait(c, b, now))
    ensures Next(c, b, now).tokens == Refilled(c, b, now) && Next(c, b, now).tokens >= b.tokens
  {
    if Spends(c, b, now) { SpentIsAllowed(c, b, now); }
    RefillHelps(c, b, now);
  }

  /** Before the call, the refilled bucket falls short of a token by more than the delay in whole
      microseconds makes up, and by less than the first nanosecond past the delay makes up. */
  predicate InGap(c: Clock, b: Bucket, now: int) {
    1.0 - c.limit * ((c.maxDelayNanos + 1) as real) / 1000.0 < Refilled(c, b, now) < 1.0 - Worth(c, MaxDelay(c))
  }

  /** A call is allowed without costing a token exactly if the bucket it finds lies in that gap. */
  lemma AllowedUnspentIff(c: Clock, b: Bucket, now: int)
    requires Sound(c)
    ensures Allowed(c, Wait(c, b, now)) && !Spends(c, b, now) <==> InGap(c, b, now)
  {
    var short := 1.0 - Refilled(c, b, now);
    var delay := MaxDelay(c) as real;
    DividesBelow(c.limit, short, delay);
    DividesBelow(c.limit, short, ((c.maxDelayNanos + 1) as real) / 1000.0);
    assert c.limit * delay >= 0.0;
    if short > 0.0 { FloorBelow(short / c.limit * 1000.0, c.maxDelayNanos); }
  }

  lemma DividesBelow(l: real, x: real, d: real)
    requires l > 0.0
    ensures x / l < d <==> x < l * d
    ensures x / l <= d <==> x <= l * d
  {
    assert x == l * (x / l);
  }

  lemma FloorBelow(x: real, n: int)
    ensures x.Floor <= n <==> x < (n + 1) as real
  {
  }

  /** `n` calls at one clock reading. */
  function Burst(now: int, n: nat): seq<int> { seq(n, _ => now) }

  /** In the gap, any number of calls at one clock reading are all allowed and cost nothing. */
  lemma {:induction false} GapIsFree(c: Clock, b: Bucket, now: int, n: nat)
    requires Sound(c) && InGap(c, b, now)
    ensures Spent(c, b, Burst(now, n)) == 0 && InGap(c, After(c, b, Burst(now, n)), now)
    ensures Allowed(c, Wait(c, After(c, b, Burst(now, n)), now))
  {
    if n > 0 {
      assert Burst(now, n)[..n - 1] == Burst(now, n - 1);
      GapIsFree(c, b, now, n - 1);
      StaysInGap(c, After(c, b, Burst(now, n - 1)), now);
    }
    AllowedUnspentIff(c, After(c, b, Burst(now, n)), now);
  }

  lemma StaysInGap(c: Clock, b: Bucket, now: int)
    requires Sound(c) && InGap(c, b, now)
    ensures !Spends(c, b, now) && InGap(c, Next(c, b, now), now)
  {
    AllowedUnspentIff(c, b, now);
    assert Worth(c, 0) == 0.0;
    assert Refilled(c, Next(c, b, now), now) == Refilled(c, b, now);
  }

  /** A run reaches the gap: from a full bucket with no accepted delay, a call one microsecond after the
      burst was spent. */
  lemma AllowedUnspentExample()
    ensures var c := Clock(0.9995, 1, 0); var b := After(c, Full(c, 0), [0]);
            Sound(c) && InGap(c, b, 1) && Allowed(c, Wait(c, b, 1)) && !Spends(c, b, 1)
  {
    var c := Clock(0.9995, 1, 0);
    var f := Full(c, 0);
    assert [0][..0] == [];
    assert After(c, f, []) == f;
    assert After(c, f, [0]) == Next(c, f, 0);
    assert Refilled(c, f, 0) == 1.0;
    assert Next(c, f, 0) == Bucket(0.0, 0);
    assert Refilled(c, Bucket(0.0, 0), 1) == 0.9995;
    AllowedUnspentIff(c, Bucket(0.0, 0), 1);
  }
}
