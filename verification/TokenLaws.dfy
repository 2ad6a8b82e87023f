/** What one call of the token bucket does, in the numbers of its clock, and what a bucket serves. */
module TokenLaws {
  import opened Basics
  import opened TokenBucket
  import opened TokenMemory

  /** What the bucket holds at the call: the tokens it had and `limit` more for every microsecond since, up to
      the burst. A clock that went back adds nothing. */
  lemma HoldingIs(c: Clock, b: Bucket, now: int)
    requires Sound(c)
    ensures var held := b.tokens + c.limit * ((if now > b.last then now - b.last else 0) as real);
            Refilled(c, b, now) == if held <= c.burst as real then held else c.burst as real
  {
  }

  /** The wait is how long the bucket still has to fill to hold a token: none if it holds one, and otherwise
      filled for just that long it holds exactly one. */
  lemma WaitIs(c: Clock, b: Bucket, now: int)
    requires Sound(c)
    ensures Wait(c, b, now) >= 0.0
    ensures Wait(c, b, now) == 0.0 <==> Refilled(c, b, now) >= 1.0
    ensures Refilled(c, b, now) < 1.0 ==> Refilled(c, b, now) + c.limit * Wait(c, b, now) == 1.0
  {
    hide Refilled;
    var short := 1.0 - Refilled(c, b, now);
    if short > 0.0 {
      assert Wait(c, b, now) == short / c.limit;
      Divided(c.limit, short);
    }
  }

  lemma Divided(l: real, x: real)
    requires l > 0.0 && x > 0.0
    ensures x / l > 0.0 && l * (x / l) == x
  {
    assert l * (x / l) == x;
  }

  /** The call costs a token exactly if the delay accepted, in whole microseconds, fills the bucket to one;
      what it returns is the wait in nanoseconds, the fraction cut off. */
  lemma CallIs(c: Clock, b: Bucket, now: int)
    requires Sound(c)
    ensures Spends(c, b, now) <==> Refilled(c, b, now) + c.limit * ((c.maxDelayNanos / 1000) as real) >= 1.0
    ensures Next(c, b, now).tokens == Refilled(c, b, now) - if Spends(c, b, now) then 1.0 else 0.0
    ensures Next(c, b, now).last == if now > b.last then now else b.last
    ensures WaitNanos(Wait(c, b, now)) == (Wait(c, b, now) * 1000.0).Floor
  {
    hide Refilled;
    WaitIs(c, b, now);
    DividesBelow(c.limit, 1.0 - Refilled(c, b, now), MaxDelay(c) as real);
    DelayWorth(c);
  }

  lemma DelayWorth(c: Clock)
    requires Sound(c)
    ensures MaxDelay(c) == c.maxDelayNanos / 1000 >= 0 && c.limit * (MaxDelay(c) as real) >= 0.0
  {
  }

  // ---------------------------------------------------------------- stretches that never fill the bucket

  /** The call does not find the bucket over its burst. */
  predicate NotFull(c: Clock, b: Bucket, now: int) {
    b.tokens + Worth(c, if now > b.last then now - b.last else 0) <= c.burst as real
  }

  ghost predicate NeverFull(c: Clock, b: Bucket, nows: seq<int>)
    requires c.limit > 0.0
  {
    forall k :: 0 <= k < |nows| ==> NotFull(c, After(c, b, nows[..k]), nows[k])
  }

  lemma CutsNothing(c: Clock, b: Bucket, now: int)
    requires Sound(c) && NotFull(c, b, now)
    ensures b.tokens + Worth(c, Next(c, b, now).last - b.last) - Refilled(c, b, now) == 0.0
  {
    assert Worth(c, 0) == 0.0;
  }

  lemma {:induction false} NothingCutOff(c: Clock, b: Bucket, nows: seq<int>)
    requires Sound(c) && NeverFull(c, b, nows)
    ensures Overflow(c, b, nows) == 0.0
  {
    hide NotFull, After, Worth, Refilled, Next;
    if nows != [] {
      var n := |nows| - 1;
      forall k | 0 <= k < n ensures NotFull(c, After(c, b, nows[..n][..k]), nows[..n][k]) { assert nows[..n][..k] == nows[..k]; }
      NothingCutOff(c, b, nows[..n]);
      CutsNothing(c, After(c, b, nows[..n]), nows[n]);
    }
  }

  /** Over a run that never fills the bucket the tokens left are those at the start, plus `limit` for every
      microsecond the clock has advanced, less the calls that cost one. */
  lemma TokensAre(c: Clock, b: Bucket, nows: seq<int>)
    requires Sound(c) && NeverFull(c, b, nows)
    ensures After(c, b, nows).tokens == b.tokens + c.limit * ((After(c, b, nows).last - b.last) as real) - Spent(c, b, nows) as real
  {
    hide NeverFull, After, Spent, Overflow;
    TokensConserved(c, b, nows);
    NothingCutOff(c, b, nows);
  }

  // ---------------------------------------------------------------- what a full bucket serves at once

  function AtOnce(c: Clock): nat
    requires Sound(c)
  {
    DelayWorth(c);
    c.burst + (c.limit * ((c.maxDelayNanos / 1000) as real)).Floor
  }

  /** Of n calls at one reading a full bucket serves the burst and what the accepted delay is worth in whole
      tokens, no more and no less. */
  lemma {:induction false} FullBucketServes(c: Clock, now: int, n: nat)
    requires Sound(c)
    ensures Spent(c, Full(c, now), Burst(now, n)) == if n <= AtOnce(c) then n else AtOnce(c)
    ensures var b := After(c, Full(c, now), Burst(now, n));
            b.last == now && b.tokens == (c.burst - (if n <= AtOnce(c) then n else AtOnce(c))) as real
  {
    hide AtOnce;
    var f := Full(c, now);
    if n > 0 {
      FullBucketServes(c, now, n - 1);
      assert Burst(now, n)[..n - 1] == Burst(now, n - 1);
      var was := After(c, f, Burst(now, n - 1));
      hide After, Spent, Next, Refilled, Spends;
      var drawn := if n - 1 <= AtOnce(c) then n - 1 else AtOnce(c);
      OneMoreCall(c, was, drawn, now);
      AfterLast(c, f, Burst(now, n));
    }
  }

  lemma AfterLast(c: Clock, b: Bucket, nows: seq<int>)
    requires c.limit > 0.0 && nows != []
    ensures var was := After(c, b, nows[..|nows| - 1]);
            After(c, b, nows) == Next(c, was, nows[|nows| - 1])
            && Spent(c, b, nows) == Spent(c, b, nows[..|nows| - 1]) + if Spends(c, was, nows[|nows| - 1]) then 1 else 0
  {
    hide Next, Spends;
  }

  lemma OneMoreCall(c: Clock, b: Bucket, drawn: nat, now: int)
    requires Sound(c) && b == Bucket((c.burst - drawn) as real, now) && drawn <= AtOnce(c)
    ensures Spends(c, b, now) == (drawn < AtOnce(c)) && Next(c, b, now).last == now
    ensures Next(c, b, now).tokens == (c.burst - drawn - if drawn < AtOnce(c) then 1 else 0) as real
  {
    Unmoved(c, b, now);
    CallIs(c, b, now);
    hide Refilled, Spends, Next;
    var w := c.limit * ((c.maxDelayNanos / 1000) as real);
    var left := c.burst - drawn;
    assert (left as real) + w >= 1.0 <==> w.Floor >= 1 - left;
  }

  lemma Unmoved(c: Clock, b: Bucket, now: int)
    requires Sound(c) && b.last == now && b.tokens <= c.burst as real
    ensures Refilled(c, b, now) == b.tokens
  {
    assert Worth(c, 0) == 0.0;
  }

  // ---------------------------------------------------------------- one source's record

  /** A call finds the source's own bucket while it is younger than the ttl, and otherwise a full one; either way
      the record lives another ttl. */
  lemma RecordIs(c: Clock, ttl: int, e: Option<Entry>, now: int)
    requires Sound(c)
    ensures BucketFor(c, e, now) == if e.Some? && now < e.value.expireAt then e.value.bucket else Bucket(c.burst as real, now / 1000)
    ensures Served(c, ttl, e, now) == Entry(Next(c, BucketFor(c, e, now), now / 1000), now + ttl)
  {
  }
}
