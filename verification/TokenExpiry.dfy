/** One source of the in-process token bucket over several lifetimes: a source that stays away for the ttl
    comes back to a full bucket, and the bound on what it spends survives that only if the ttl is worth it. */
module TokenExpiry {
  import opened Basics
  import opened TokenBucket
  import opened TokenMemory
  import NearWhole

  /** validateClock: the ttl is a whole number of seconds, in nanoseconds here. */
  const SECOND := 1_000_000_000

  predicate TtlOK(ttl: int) { ttl >= SECOND && ttl % SECOND == 0 }

  /** The source's record after calls at these clock readings, in nanoseconds. */
  function RecordAfter(c: Clock, ttl: int, nows: seq<int>): Option<Entry>
    requires c.limit > 0.0
  {
    if nows == [] then None
    else Some(Served(c, ttl, RecordAfter(c, ttl, nows[..|nows| - 1]), nows[|nows| - 1]))
  }

  /** How many of the calls cost a token. */
  function TotalSpent(c: Clock, ttl: int, nows: seq<int>): nat
    requires c.limit > 0.0
  {
    if nows == [] then 0
    else
      var n := |nows| - 1;
      TotalSpent(c, ttl, nows[..n]) + if Spends(c, BucketFor(c, RecordAfter(c, ttl, nows[..n]), nows[n]), nows[n] / 1000) then 1 else 0
  }

  ghost predicate Ordered(nows: seq<int>) { forall i, j :: 0 <= i < j < |nows| ==> nows[i] <= nows[j] }

  /** The bound of SpentIsBounded, over the whole history. */
  ghost predicate Bounded(c: Clock, ttl: int, nows: seq<int>)
    requires c.limit > 0.0 && nows != []
  {
    TotalSpent(c, ttl, nows) as real
    <= (c.burst as real) + Worth(c, nows[|nows| - 1] / 1000 - nows[0] / 1000) + Worth(c, MaxDelay(c))
  }

  // ---------------------------------------------------------------- a ttl worth the burst and the debt

  predicate Covers(c: Clock, ttl: int) { Worth(c, ttl / 1000) >= (c.burst as real) + Worth(c, MaxDelay(c)) }

  ghost predicate Afloat(c: Clock, ttl: int, nows: seq<int>)
    requires c.limit > 0.0 && nows != []
  {
    var e := RecordAfter(c, ttl, nows).value;
    var now := nows[|nows| - 1];
    && InBounds(c, e.bucket) && e.bucket.last == now / 1000 && e.expireAt == now + ttl
    && e.bucket.tokens + (TotalSpent(c, ttl, nows) as real) <= (c.burst as real) + Worth(c, now / 1000 - nows[0] / 1000)
  }

  lemma Later(a: int, b: int, ttl: int)
    requires b >= a + ttl
    ensures b / 1000 - a / 1000 >= ttl / 1000
  {
  }

  lemma WorthGrows(c: Clock, x: int, y: int)
    requires c.limit > 0.0 && x <= y
    ensures Worth(c, x) <= Worth(c, y)
  {
    assert c.limit * ((y - x) as real) >= 0.0;
    Distribute(c.limit, x as real, (y - x) as real);
    assert y as real == x as real + (y - x) as real;
  }

  lemma FirstCall(c: Clock, ttl: int, nows: seq<int>)
    requires Sound(c) && |nows| == 1
    ensures Afloat(c, ttl, nows)
  {
    hide Spends, Refilled, Next, InBounds;
    var now := nows[0] / 1000;
    var b := Full(c, now);
    assert nows[..0] == [] && RecordAfter(c, ttl, nows[..0]).None? && TotalSpent(c, ttl, nows[..0]) == 0;
    assert RecordAfter(c, ttl, nows) == Some(Served(c, ttl, None, nows[0]));
    FullInBounds(c, now);
    NextInBounds(c, b, now);
    OneCall(c, b, now);
    RefillHelps(c, b, now);
    FullStays(c, now);
    assert Worth(c, 0) == 0.0;
  }

  lemma FullStays(c: Clock, now: int)
    requires Sound(c)
    ensures Next(c, Full(c, now), now).last == now
  {
  }

  /** A call on a live bucket. */
  lemma LiveCall(c: Clock, ttl: int, nows: seq<int>)
    requires Sound(c) && Ordered(nows) && |nows| > 1 && Afloat(c, ttl, nows[..|nows| - 1])
    requires !Expired(RecordAfter(c, ttl, nows[..|nows| - 1]).value, nows[|nows| - 1])
    ensures Afloat(c, ttl, nows)
  {
    hide Spends, Refilled, InBounds, Worth;
    var n := |nows| - 1;
    var was := nows[..n];
    var b := RecordAfter(c, ttl, was).value.bucket;
    var now := nows[n] / 1000;
    assert nows[n - 1] <= nows[n] && was[|was| - 1] == nows[n - 1] && was[0] == nows[0];
    NextInBounds(c, b, now);
    OneCall(c, b, now);
    RefillHelps(c, b, now);
    Advances(c, nows[0] / 1000, b.last, now);
  }

  /** A call on a source that stayed away for the ttl. */
  lemma NewCall(c: Clock, ttl: int, nows: seq<int>)
    requires Sound(c) && Ordered(nows) && |nows| > 1 && Covers(c, ttl) && Afloat(c, ttl, nows[..|nows| - 1])
    requires Expired(RecordAfter(c, ttl, nows[..|nows| - 1]).value, nows[|nows| - 1])
    ensures Afloat(c, ttl, nows)
  {
    hide Spends, Refilled, Worth;
    var n := |nows| - 1;
    var was := nows[..n];
    var e := RecordAfter(c, ttl, was).value;
    var now := nows[n] / 1000;
    assert was[|was| - 1] == nows[n - 1] && was[0] == nows[0];
    var b := Full(c, now);
    FullInBounds(c, now);
    NextInBounds(c, b, now);
    OneCall(c, b, now);
    RefillHelps(c, b, now);
    FullStays(c, now);
    Later(nows[n - 1], nows[n], ttl);
    WorthGrows(c, ttl / 1000, now - e.bucket.last);
    Advances(c, nows[0] / 1000, e.bucket.last, now);
  }

  lemma {:induction false} StaysAfloat(c: Clock, ttl: int, nows: seq<int>)
    requires Sound(c) && Ordered(nows) && nows != [] && Covers(c, ttl)
    ensures Afloat(c, ttl, nows)
  {
    hide Afloat, Covers;
    if |nows| == 1 { FirstCall(c, ttl, nows); }
    else {
      StaysAfloat(c, ttl, nows[..|nows| - 1]);
      if Expired(RecordAfter(c, ttl, nows[..|nows| - 1]).value, nows[|nows| - 1]) { NewCall(c, ttl, nows); } else { LiveCall(c, ttl, nows); }
    }
  }

  /** With a clock that does not go back and a ttl that is worth the burst and the debt the delay allows, a
      source never spends more than one bucket would let it, however often it expires. */
  lemma BoundSurvivesExpiry(c: Clock, ttl: int, nows: seq<int>)
    requires Sound(c) && Ordered(nows) && nows != [] && Covers(c, ttl)
    ensures Bounded(c, ttl, nows)
  {
    StaysAfloat(c, ttl, nows);
  }

  // ---------------------------------------------------------------- a ttl worth less

  function Debt(c: Clock): real { Worth(c, MaxDelay(c)) }

  /** The source's last call was at `now`: it has spent so much and its bucket holds so much. */
  ghost predicate Stands(c: Clock, ttl: int, h: seq<int>, now: int, spent: nat, tokens: real)
    requires c.limit > 0.0
  {
    && h != [] && h[|h| - 1] == now && Ordered(h) && TotalSpent(c, ttl, h) == spent
    && RecordAfter(c, ttl, h) == Some(Entry(Bucket(tokens, now / 1000), now + ttl))
  }

  /** The source has no bucket left at `now`. */
  ghost predicate Away(c: Clock, ttl: int, h: seq<int>, now: int)
    requires c.limit > 0.0
  {
    && Ordered(h) && (h != [] ==> h[|h| - 1] <= now)
    && (RecordAfter(c, ttl, h).None? || Expired(RecordAfter(c, ttl, h).value, now))
  }

  /** The bucket has been drawn on as far as the delay allows. */
  predicate Drained(c: Clock, tokens: real) { -Debt(c) <= tokens < 1.0 - Debt(c) }

  lemma OneMore(c: Clock, ttl: int, h: seq<int>, now: int)
    requires Sound(c) && Ordered(h) && (h != [] ==> h[|h| - 1] <= now) && BucketFor(c, RecordAfter(c, ttl, h), now).last <= now / 1000
    ensures var b := BucketFor(c, RecordAfter(c, ttl, h), now);
            Stands(c, ttl, h + [now], now, TotalSpent(c, ttl, h) + if Spends(c, b, now / 1000) then 1 else 0, Next(c, b, now / 1000).tokens)
  {
    hide Spends, Next, Ordered, BucketFor;
    var all, e, at := h + [now], RecordAfter(c, ttl, h), now / 1000;
    var b := BucketFor(c, e, now);
    InOrder(h, now);
    LaterLast(c, b, at);
    assert all[..|all| - 1] == h && all[|all| - 1] == now;
    assert RecordAfter(c, ttl, all) == Some(Entry(Next(c, b, at), now + ttl));
  }

  lemma InOrder(h: seq<int>, now: int)
    requires Ordered(h) && (h != [] ==> h[|h| - 1] <= now)
    ensures Ordered(h + [now])
  {
  }

  lemma LaterLast(c: Clock, b: Bucket, now: int)
    requires Sound(c) && b.last <= now
    ensures Next(c, b, now).last == now
  {
    hide Spends, Refilled;
  }

  lemma SpendsIff(c: Clock, b: Bucket, now: int)
    requires Sound(c)
    ensures Spends(c, b, now) <==> Refilled(c, b, now) - 1.0 >= -Debt(c)
  {
    assert c.limit * (MaxDelay(c) as real) >= 0.0;
    DividesBelow(c.limit, 1.0 - Refilled(c, b, now), MaxDelay(c) as real);
  }

  lemma SameTime(c: Clock, tokens: real, now: int)
    requires Sound(c) && tokens <= c.burst as real
    ensures Refilled(c, Bucket(tokens, now), now) == tokens
  {
    assert Worth(c, 0) == 0.0;
  }

  /** Calls at one clock reading until the next would be refused. */
  lemma Drains(c: Clock, ttl: int, h: seq<int>, now: int, spent: nat, tokens: real) returns (h': seq<int>, spent': nat, tokens': real)
    requires Sound(c) && ttl > 0 && Stands(c, ttl, h, now, spent, tokens) && -Debt(c) <= tokens <= c.burst as real
    ensures Stands(c, ttl, h', now, spent', tokens') && h <= h' && Drained(c, tokens')
    ensures tokens' + spent' as real == tokens + spent as real
    decreases (tokens + Debt(c)).Floor
  {
    if tokens < 1.0 - Debt(c) { h', spent', tokens' := h, spent, tokens; }
    else {
      var b := Bucket(tokens, now / 1000);
      SameTime(c, tokens, now / 1000);
      SpendsIff(c, b, now / 1000);
      OneMore(c, ttl, h, now);
      hide Debt;
      h', spent', tokens' := Drains(c, ttl, h + [now], now, spent + 1, tokens - 1.0);
    }
  }

  /** The first call of a life finds a full bucket. */
  lemma Arrives(c: Clock, ttl: int, h: seq<int>, now: int)
    requires Sound(c) && Away(c, ttl, h, now)
    ensures Stands(c, ttl, h + [now], now, TotalSpent(c, ttl, h) + 1, c.burst as real - 1.0)
  {
    SameTime(c, c.burst as real, now / 1000);
    SpendsIff(c, Full(c, now / 1000), now / 1000);
    assert c.limit * (MaxDelay(c) as real) >= 0.0;
    OneMore(c, ttl, h, now);
  }

  /** A call one microsecond later: the burst cuts nothing off a drained bucket. */
  lemma Ticks(c: Clock, ttl: int, h: seq<int>, now: int, spent: nat, tokens: real) returns (spent': nat, tokens': real)
    requires Sound(c) && ttl > 1000 && MaxDelay(c) >= 1 && now % 1000 == 0
    requires Stands(c, ttl, h, now, spent, tokens) && Drained(c, tokens)
    ensures Stands(c, ttl, h + [now + 1000], now + 1000, spent', tokens') && -Debt(c) <= tokens' <= c.burst as real
    ensures tokens' + spent' as real == tokens + spent as real + Worth(c, 1)
  {
    var b, at := Bucket(tokens, now / 1000), now / 1000 + 1;
    WorthGrows(c, 1, MaxDelay(c));
    assert (now + 1000) / 1000 == at;
    assert Refilled(c, b, at) == tokens + Worth(c, 1);
    assert InBounds(c, b);
    NextInBounds(c, b, at);
    OneMore(c, ttl, h, now + 1000);
    spent', tokens' := spent + (if Spends(c, b, at) then 1 else 0), Next(c, b, at).tokens;
  }

  lemma WorthNext(c: Clock, m: nat)
    ensures Worth(c, m + 1) == Worth(c, m) + Worth(c, 1)
  {
    Distribute(c.limit, m as real, 1.0);
    assert (m + 1) as real == m as real + 1.0;
  }

  /** One life of m microseconds in which every token is drawn as soon as it comes. */
  lemma {:induction false} Lives(c: Clock, ttl: int, h: seq<int>, start: int, m: nat) returns (h': seq<int>, spent: nat, tokens: real)
    requires Sound(c) && ttl > 1000 && start % 1000 == 0 && Away(c, ttl, h, start) && (m > 0 ==> MaxDelay(c) >= 1)
    ensures Stands(c, ttl, h', start + 1000 * m, spent, tokens) && h + [start] <= h' && Drained(c, tokens)
    ensures tokens + spent as real == c.burst as real + TotalSpent(c, ttl, h) as real + Worth(c, m)
    decreases m
  {
    hide Stands, Away, Drained, Worth, Debt;
    if m == 0 {
      Arrives(c, ttl, h, start);
      ZeroWorth(c);
      h', spent, tokens := Drains(c, ttl, h + [start], start, TotalSpent(c, ttl, h) + 1, c.burst as real - 1.0);
    } else {
      h', spent, tokens := Lives(c, ttl, h, start, m - 1);
      var now := start + 1000 * (m - 1);
      var was := h';
      spent, tokens := Ticks(c, ttl, was, now, spent, tokens);
      h', spent, tokens := Drains(c, ttl, was + [now + 1000], now + 1000, spent, tokens);
      WorthNext(c, m - 1);
    }
  }

  lemma ZeroWorth(c: Clock)
    requires Sound(c)
    ensures Worth(c, 0) == 0.0 && -Debt(c) <= c.burst as real - 1.0
  {
    assert c.limit * (MaxDelay(c) as real) >= 0.0;
  }

  /** Where the delay and the life together are worth a whole number and a rest, a drained bucket is that
      rest above the deepest debt. */
  lemma EndsNearDebt(c: Clock, m: nat, p: int, rest: real, spent: int, tokens: real)
    requires NearWhole.Lands(c.limit, MaxDelay(c) + m, p, rest) && 0.0 <= rest < 1.0 && Drained(c, tokens)
    requires tokens + spent as real == c.burst as real + Worth(c, m)
    ensures tokens == rest - Debt(c)
  {
    Distribute(c.limit, MaxDelay(c) as real, m as real);
    assert (MaxDelay(c) + m) as real == MaxDelay(c) as real + m as real;
    var whole := c.burst + p - spent;
    assert tokens + Debt(c) == whole as real + rest;
    assert whole == 0;
  }

  /** Two lives, one ttl apart, both ending a small rest above the deepest debt. */
  lemma TwoLives(c: Clock, ttl: int, m: nat, p: int, rest: real) returns (h: seq<int>)
    requires Sound(c) && TtlOK(ttl) && (m > 0 ==> MaxDelay(c) >= 1)
    requires NearWhole.Lands(c.limit, MaxDelay(c) + m, p, rest) && 0.0 <= rest < 1.0
    ensures h != [] && Ordered(h) && h[0] == 0 && h[|h| - 1] == 2000 * m + ttl
    ensures TotalSpent(c, ttl, h) as real == 2.0 * (c.burst as real + Worth(c, m) + Debt(c) - rest)
  {
    hide Worth, Debt, Drained, NearWhole.Lands, Stands, Away, TotalSpent, Ordered, TtlOK, MaxDelay;
    WholeStart(m, ttl);
    NoneIsAway(c, ttl, 0);
    var first, spent, tokens := Lives(c, ttl, [], 0, m);
    EndsNearDebt(c, m, p, rest, spent, tokens);
    SoonAway(c, ttl, first, 1000 * m, spent, tokens);
    var start := 1000 * m + ttl;
    var spent2, tokens2;
    h, spent2, tokens2 := Lives(c, ttl, first, start, m);
    var more: int := spent2 as int - spent as int;
    EndsNearDebt(c, m, p, rest, more, tokens2);
    SoonAway(c, ttl, h, start + 1000 * m, spent2, tokens2);
    assert h[0] == first[0] == 0;
  }

  lemma WholeStart(m: nat, ttl: int)
    requires TtlOK(ttl)
    ensures ttl > 1000 && (1000 * m + ttl) % 1000 == 0 && (2000 * m + ttl) / 1000 == 2 * m + ttl / 1000
  {
    assert ttl % 1000 == 0;
  }

  lemma NoneIsAway(c: Clock, ttl: int, now: int)
    requires Sound(c)
    ensures Away(c, ttl, [], now) && TotalSpent(c, ttl, []) == 0
  {
  }

  lemma SoonAway(c: Clock, ttl: int, h: seq<int>, now: int, spent: nat, tokens: real)
    requires Sound(c) && ttl > 0 && Stands(c, ttl, h, now, spent, tokens)
    ensures Away(c, ttl, h, now + ttl) && TotalSpent(c, ttl, h) == spent && Ordered(h) && h != [] && h[|h| - 1] == now
  {
  }

  /** With a ttl worth less than the burst and the debt, some source spends more than the bound. */
  lemma BoundFailsAcrossExpiry(c: Clock, ttl: int)
    requires Sound(c) && TtlOK(ttl) && !Covers(c, ttl)
    ensures exists nows: seq<int> :: nows != [] && Ordered(nows) && !Bounded(c, ttl, nows)
  {
    var missing := c.burst as real + Debt(c) - Worth(c, ttl / 1000);
    var small := if missing > 2.0 then 0.5 else missing / 4.0;
    var m, p, rest := NearWhole.From(c.limit, MaxDelay(c), small);
    hide Worth;
    var h := TwoLives(c, ttl, m, p, rest);
    Advances(c, 0, m, 2 * m);
    Advances(c, 0, 2 * m, 2 * m + ttl / 1000);
    WholeStart(m, ttl);
    assert !Bounded(c, ttl, h);
  }

  /** Over every history, on a clock that does not go back, the bound holds exactly if the ttl is worth the
      burst and the debt the delay allows. */
  lemma ExpiryBoundIff(c: Clock, ttl: int)
    requires Sound(c) && TtlOK(ttl)
    ensures (forall nows: seq<int> :: nows != [] && Ordered(nows) ==> Bounded(c, ttl, nows)) <==> Covers(c, ttl)
  {
    if Covers(c, ttl) {
      forall nows: seq<int> | nows != [] && Ordered(nows) ensures Bounded(c, ttl, nows) { BoundSurvivesExpiry(c, ttl, nows); }
    } else {
      BoundFailsAcrossExpiry(c, ttl);
    }
  }

  /** One token a second, a burst of one, half a second of delay and a ttl of one second: some source
      spends more than the bound. */
  lemma ExpiryExample()
    ensures var c := Clock(0.000001, 1, 500_000_000);
            Sound(c) && TtlOK(SECOND) && exists nows: seq<int> :: nows != [] && Ordered(nows) && !Bounded(c, SECOND, nows)
  {
    var c := Clock(0.000001, 1, 500_000_000);
    assert Worth(c, SECOND / 1000) == 1.0 && Worth(c, MaxDelay(c)) == 0.5;
    BoundFailsAcrossExpiry(c, SECOND);
  }
}
