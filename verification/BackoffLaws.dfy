/** What Allow and Report do to a key, in the numbers of its configuration, one call at a time and over
    stretches of calls. */
module BackoffLaws {
  import opened Basics
  import opened Backoff

  // ---------------------------------------------------------------- one report

  /** While CLOSED a success earns p/(1-p), up to the budget, and changes nothing else. */
  lemma SuccessEarns(c: Config, e: Entry, now: int, sample: real)
    requires Sound(c) && EntryOK(c, e) && e.state == Shut
    ensures var r := Note(c, e, true, now, sample);
            && r == e.(credit := r.credit, expireAt := now + c.ttl) && r.credit <= c.trip as real
            && (r.credit < c.trip as real ==> (1.0 - c.ratio) * (r.credit - e.credit) == c.ratio)
            && (r.credit == c.trip as real ==> (1.0 - c.ratio) * (r.credit - e.credit) <= c.ratio)
  {
    var q := SuccessCredit(c);
    assert (1.0 - c.ratio) * q == c.ratio;
    hide SuccessCredit;
    var gain := Note(c, e, true, now, sample).credit - e.credit;
    if gain != q { Larger(1.0 - c.ratio, gain, q); }
  }

  lemma Larger(x: real, y: real, z: real)
    requires x > 0.0 && y <= z
    ensures x * y <= x * z
  {
    assert x * (z - y) >= 0.0;
  }

  /** While CLOSED a failure costs one; the gate opens exactly if nothing is left, for the cooldown of the
      exponent, which is back at zero after a full MaxCooldown of CLOSED. */
  lemma FailureCosts(c: Config, e: Entry, now: int, sample: real)
    requires Sound(c) && EntryOK(c, e) && e.state == Shut
    ensures var r := Note(c, e, false, now, sample);
            && r.credit == e.credit - 1.0 && r.expireAt == now + c.ttl
            && r.n == (if now >= e.closedSince.value + c.max then 0 else e.n)
            && (e.credit > 1.0 ==> r.state == Shut && r.closedSince == e.closedSince)
            && (e.credit <= 1.0 ==> r.state == Open && r.closedSince == None && r.openUntil == now + Cooldown(c, r.n, sample))
  {
    hide Cooldown;
  }

  /** A probe's report: success closes the gate with its whole budget, failure opens it again for the cooldown
      of an exponent one higher. While OPEN a report only keeps the key. */
  lemma ProbeReports(c: Config, e: Entry, success: bool, now: int, sample: real)
    requires Sound(c) && EntryOK(c, e) && e.state != Shut
    ensures var r := Note(c, e, success, now, sample);
            && r.expireAt == now + c.ttl
            && (e.state == Open ==> r == e.(expireAt := now + c.ttl))
            && (e.state == HalfOpen && success ==> r.state == Shut && r.credit == c.trip as real && r.closedSince == Some(now) && r.n == e.n)
            && (e.state == HalfOpen && !success ==> r.state == Open && r.n == e.n + 1 && r.openUntil == now + Cooldown(c, e.n + 1, sample))
  {
    hide Cooldown;
  }

  /** The cooldown is the base doubled n times and capped, spread by the sample and capped again. */
  lemma CooldownIs(c: Config, n: nat, sample: real)
    requires Sound(c) && 0.0 <= sample < 1.0
    ensures Doubled(c, n) == if c.base * Pow2(n) <= c.max then c.base * Pow2(n) else c.max
    ensures var spread := ((Doubled(c, n) as real) * (1.0 + c.jitter * (2.0 * sample - 1.0))).Floor;
            Cooldown(c, n, sample) == if spread <= c.max then spread else c.max
  {
    SpreadOnce(c, n, sample);
    assert Spread(Doubled(c, n), c.jitter, sample) == (Doubled(c, n) as real) * (1.0 + c.jitter * (2.0 * sample - 1.0));
    hide *;
  }

  lemma SpreadOnce(c: Config, n: nat, sample: real)
    requires Sound(c) && 0.0 <= sample < 1.0
    ensures var spread := Spread(Doubled(c, n), c.jitter, sample).Floor;
            Cooldown(c, n, sample) == if spread <= c.max then spread else c.max
  {
    RawGrows(c, n, 0);
    RawDoubles(c, 0);
    var wait := Doubled(c, n);
    assert 0 < wait <= c.max;
    NotBelowZero(wait, c.jitter, sample);
    hide Raw, Doubled, Spread;
    if c.jitter <= 0.0 { Unspread(wait, c.jitter, sample); }
  }

  lemma NotBelowZero(wait: int, jitter: real, sample: real)
    requires wait > 0 && 0.0 <= jitter < 1.0 && 0.0 <= sample < 1.0
    ensures Spread(wait, jitter, sample) >= 0.0
  {
    if jitter > 0.0 { SpreadBounds(wait, jitter, sample); } else { Unspread(wait, jitter, sample); }
  }

  lemma Unspread(wait: int, jitter: real, sample: real)
    requires jitter == 0.0
    ensures Spread(wait, jitter, sample).Floor == wait
  {
    assert jitter * (2.0 * sample - 1.0) == 0.0;
  }

  // ---------------------------------------------------------------- one ask

  /** CLOSED admits. OPEN refuses until its time and then admits one probe. HALF-OPEN refuses while its probe
      is out and has time left, and then admits another. A refusal says how long is left. */
  lemma AskIs(c: Config, e: Entry, now: int)
    requires Sound(c) && EntryOK(c, e)
    ensures var (r, allowed, wait) := Admit(c, e, now);
            var until := if e.state == Open then e.openUntil else e.probeUntil;
            && allowed == (e.state == Shut || now >= until) && wait == (if allowed then 0 else until - now)
            && r.expireAt == now + c.ttl && r.credit == e.credit && r.closedSince == e.closedSince && r.openUntil == e.openUntil
            && (e.state == Shut ==> r.state == Shut && r.n == if now >= e.closedSince.value + c.max then 0 else e.n)
            && (e.state != Shut && allowed ==> r.state == HalfOpen && r.probeUntil == now + c.base && r.n == e.n)
            && (!allowed ==> r == e.(expireAt := now + c.ttl))
  {
  }

  /** A key the gate has not seen is CLOSED with its whole budget and no failed probes. */
  lemma NewKeyIs(c: Config, now: int)
    requires Sound(c)
    ensures var e := NewEntry(c, now);
            EntryOK(c, e) && e.state == Shut && e.credit == c.trip as real && e.n == 0 && e.closedSince == Some(now)
  {
  }

  // ---------------------------------------------------------------- a CLOSED stretch

  /** No success of the stretch meets the budget. */
  ghost predicate Uncapped(c: Config, e: Entry, evs: seq<Event>)
    requires Sound(c)
  {
    forall k :: 0 <= k < |evs| && evs[k].Told? && evs[k].success ==> After(c, e, evs[..k + 1]).credit < c.trip as real
  }

  /** The credit after so many successes and failures. */
  function Balance(c: Config, start: real, good: nat, bad: nat): real
    requires c.ratio < 1.0
  {
    start + (good as real) * (c.ratio / (1.0 - c.ratio)) - bad as real
  }

  lemma OneMoreSuccess(c: Config, start: real, good: nat, bad: nat, x: real)
    requires c.ratio < 1.0 && (1.0 - c.ratio) * (x - Balance(c, start, good, bad)) == c.ratio
    ensures x == Balance(c, start, good + 1, bad)
  {
    var q := c.ratio / (1.0 - c.ratio);
    assert (1.0 - c.ratio) * q == c.ratio;
    Cancels(1.0 - c.ratio, x - Balance(c, start, good, bad), q);
    assert (good + 1) as real * q == good as real * q + q;
  }

  lemma Cancels(x: real, y: real, z: real)
    requires x > 0.0 && x * y == x * z
    ensures y == z
  {
    assert x * (y - z) == 0.0;
  }

  lemma Prefixes(c: Config, e: Entry, evs: seq<Event>, n: nat)
    requires Sound(c) && ShutThroughout(c, e, evs) && Uncapped(c, e, evs) && n <= |evs|
    ensures ShutThroughout(c, e, evs[..n]) && Uncapped(c, e, evs[..n])
  {
    forall k | 0 <= k < n ensures After(c, e, evs[..n][..k]).state == Shut { assert evs[..n][..k] == evs[..k]; }
    forall k | 0 <= k < n && evs[..n][k].Told? && evs[..n][k].success ensures After(c, e, evs[..n][..k + 1]).credit < c.trip as real {
      assert evs[..n][..k + 1] == evs[..k + 1];
    }
  }

  /** Over a stretch handled while CLOSED that never meets the budget, the credit is the start plus p/(1-p) for
      every success less one for every failure, and the gate is open exactly if that is used up. */
  lemma {:induction false} CreditIs(c: Config, e: Entry, evs: seq<Event>)
    requires Sound(c) && EntryOK(c, e) && e.state == Shut && ShutThroughout(c, e, evs) && Uncapped(c, e, evs)
    ensures var total := Balance(c, e.credit, Count(evs, true), Count(evs, false));
            && After(c, e, evs).credit == total
            && After(c, e, evs).state == if total > 0.0 then Shut else Open
  {
    hide Note, Admit, Balance, EntryOK;
    if evs == [] { Start(c, e); }
    else {
      var n := |evs| - 1;
      var was, ev := After(c, e, evs[..n]), evs[n];
      Prefixes(c, e, evs, n);
      CreditIs(c, e, evs[..n]);
      RunKeeps(c, e, evs[..n]);
      assert was.state == Shut;
      assert evs[..n + 1] == evs;
      OneStep(c, e.credit, Count(evs[..n], true), Count(evs[..n], false), was, ev);
    }
  }

  lemma Start(c: Config, e: Entry)
    requires Sound(c) && EntryOK(c, e) && e.state == Shut
    ensures Balance(c, e.credit, 0, 0) == e.credit > 0.0
  {
    assert 0.0 * (c.ratio / (1.0 - c.ratio)) == 0.0;
  }

  lemma OneStep(c: Config, start: real, good: nat, bad: nat, e: Entry, ev: Event)
    requires Sound(c) && EntryOK(c, e) && e.state == Shut && e.credit == Balance(c, start, good, bad)
    requires ev.Told? && ev.success ==> Apply(c, e, ev).credit < c.trip as real
    ensures var total := Balance(c, start, good + (if ev.Told? && ev.success then 1 else 0), bad + if ev.Told? && !ev.success then 1 else 0);
            var r := Apply(c, e, ev);
            r.credit == total && r.state == if total > 0.0 then Shut else Open
  {
    var r := Apply(c, e, ev);
    match ev
    case Asked(now) => AskIs(c, e, now);
    case Told(success, now, sample) =>
      if success {
        SuccessEarns(c, e, now, sample);
        OneMoreSuccess(c, start, good, bad, r.credit);
        StepsKeep(c, e, now, true, sample);
      } else {
        FailureCosts(c, e, now, sample);
      }
  }

  ghost predicate AllFail(evs: seq<Event>) { forall k :: 0 <= k < |evs| ==> evs[k].Told? && !evs[k].success }

  lemma {:induction false} CountFailures(evs: seq<Event>)
    requires AllFail(evs)
    ensures Count(evs, true) == 0 && Count(evs, false) == |evs|
  {
    if evs != [] { CountFailures(evs[..|evs| - 1]); }
  }

  /** A new key stays CLOSED for one failure less than TripFailures in a row, and opens at that many. */
  lemma {:induction false} TripsAtTheCount(c: Config, now: int, evs: seq<Event>)
    requires Sound(c) && AllFail(evs) && |evs| <= c.trip
    ensures After(c, NewEntry(c, now), evs).state == if |evs| < c.trip then Shut else Open
  {
    var e := NewEntry(c, now);
    NewKeyIs(c, now);
    forall k | 0 <= k < |evs| ensures After(c, e, evs[..k]).state == Shut { TripsAtTheCount(c, now, evs[..k]); }
    CreditIs(c, e, evs);
    CountFailures(evs);
    assert 0.0 * (c.ratio / (1.0 - c.ratio)) == 0.0;
  }

  // ---------------------------------------------------------------- an OPEN spell

  /** Until its time every ask of an OPEN gate is refused with what is left, whatever is reported meanwhile;
      the first ask from then on is admitted as the probe. */
  lemma {:induction false} OpenUntilItsTime(c: Config, e: Entry, evs: seq<Event>, now: int)
    requires Sound(c) && EntryOK(c, e) && e.state == Open
    requires forall k :: 0 <= k < |evs| && evs[k].Asked? ==> evs[k].now < e.openUntil
    ensures var was := After(c, e, evs); var (r, allowed, wait) := Admit(c, was, now);
            && was == e.(expireAt := was.expireAt)
            && allowed == (now >= e.openUntil) && wait == (if allowed then 0 else e.openUntil - now)
            && (allowed ==> r.state == HalfOpen && r.probeOutstanding && r.probeUntil == now + c.base)
  {
    hide Cooldown, SuccessCredit;
    if evs != [] {
      var n := |evs| - 1;
      OpenUntilItsTime(c, e, evs[..n], evs[n].now);
      RunKeeps(c, e, evs[..n]);
    }
    RunKeeps(c, e, evs);
  }
}
