/** One key of the admission gate of backendbackoff (allow.go, gate.go): its credit, its cooldowns and
    its probe, step by step and over whole runs. Times are nanoseconds; credit is exact. */
module Backoff {
  import opened Basics

  datatype Config = Config(ratio: real, trip: int, base: int, max: int, jitter: real, ttl: int)

  predicate Sound(c: Config) {
    0.0 < c.ratio < 1.0 && c.trip >= 1 && 0 < c.base <= c.max && 0.0 <= c.jitter < 1.0
  }

  function Budget(c: Config): real { c.trip as real }

  datatype State = Shut | Open | HalfOpen      // CLOSED, OPEN and HALF-OPEN

  datatype Entry = Entry(credit: real, n: nat, state: State, openUntil: int, closedSince: Option<int>,
                         probeUntil: int, probeOutstanding: bool, expireAt: int)

  function NewEntry(c: Config, now: int): Entry { Entry(Budget(c), 0, Shut, 0, Some(now), 0, false, 0) }

  // ---------------------------------------------------------------- cooldowns

  /** The base cooldown, n times doubled. */
  function Raw(c: Config, n: nat): int { c.base * Pow2(n) }

  /** The doubled cooldown, capped. */
  function Doubled(c: Config, n: nat): int { if Raw(c, n) <= c.max then Raw(c, n) else c.max }

  /** A wait spread by a jitter sample in [0, 1). */
  function Spread(wait: int, jitter: real, sample: real): real { (wait as real) * (1.0 + jitter * (2.0 * sample - 1.0)) }

  function Cooldown(c: Config, n: nat, sample: real): int {
    if c.jitter <= 0.0 then Doubled(c, n)
    else
      var jittered := Spread(Doubled(c, n), c.jitter, sample).Floor;
      if jittered < 0 then 0 else if jittered > c.max then c.max else jittered
  }

  lemma RawDoubles(c: Config, n: nat)
    ensures Raw(c, n + 1) == 2 * Raw(c, n) && Raw(c, 0) == c.base
  {
  }

  lemma {:induction false} RawGrows(c: Config, n: nat, k: nat)
    requires c.base > 0 && k <= n
    ensures Raw(c, n) >= Raw(c, k) > 0
    decreases n
  {
    hide Raw;
    if n == 0 { RawDoubles(c, 0); }
    else {
      RawDoubles(c, n - 1);
      if k < n { RawGrows(c, n - 1, k); } else { RawGrows(c, n - 1, n - 1); }
    }
  }

  /** The doubling loop of cooldownDuration: it never exceeds the cap, and ends at the capped power. */
  method DoubledWait(c: Config, n: nat) returns (wait: int)
    requires Sound(c)
    ensures wait == Doubled(c, n)
  {
    hide Raw;
    RawDoubles(c, 0);
    wait := c.base;
    var i := 0;
    while i < n
      invariant 0 <= i <= n && wait == Raw(c, i) && 0 < wait <= c.max
    {
      RawDoubles(c, i);
      RawGrows(c, n, i + 1);
      if wait > c.max / 2 {
        return c.max;
      }
      wait := wait * 2;
      i := i + 1;
    }
    if wait > c.max { wait := c.max; }
  }

  // ---------------------------------------------------------------- steps

  /** resetNIfClosedLongEnough */
  function Rested(c: Config, e: Entry, now: int): Entry {
    if e.closedSince.Some? && now >= e.closedSince.value + c.max then e.(n := 0) else e
  }

  /** Allow on the key's entry: the entry, whether the attempt may go on, and how long to wait if not. */
  function Admit(c: Config, e: Entry, now: int): (Entry, bool, int) {
    var f := e.(expireAt := now + c.ttl);
    match e.state
    case Shut => (Rested(c, f, now), true, 0)
    case Open =>
      if now < e.openUntil then (f, false, e.openUntil - now)
      else (f.(state := HalfOpen, probeOutstanding := true, probeUntil := now + c.base), true, 0)
    case HalfOpen =>
      if e.probeOutstanding && now < e.probeUntil then (f, false, e.probeUntil - now)
      else (f.(probeOutstanding := true, probeUntil := now + c.base), true, 0)
  }

  function SuccessCredit(c: Config): real
    requires Sound(c)
  {
    c.ratio / (1.0 - c.ratio)
  }

  /** Report on the key's entry. */
  function Note(c: Config, e: Entry, success: bool, now: int, sample: real): Entry
    requires Sound(c)
  {
    var f := e.(expireAt := now + c.ttl);
    match e.state
    case Open => f
    case HalfOpen =>
      if !e.probeOutstanding then f
      else if success then f.(probeOutstanding := false, credit := Budget(c), state := Shut, closedSince := Some(now))
      else f.(probeOutstanding := false, n := e.n + 1, state := Open, openUntil := now + Cooldown(c, e.n + 1, sample))
    case Shut =>
      if success then
        f.(credit := if e.credit + SuccessCredit(c) > Budget(c) then Budget(c) else e.credit + SuccessCredit(c))
      else
        var g := Rested(c, f, now);
        if e.credit - 1.0 <= 0.0 then
          g.(credit := e.credit - 1.0, state := Open, openUntil := now + Cooldown(c, g.n, sample), closedSince := None)
        else g.(credit := e.credit - 1.0)
  }

  // ---------------------------------------------------------------- what every step keeps

  /** A shut gate has credit left and at most its budget; a half-open one waits for its probe. */
  predicate EntryOK(c: Config, e: Entry) {
    && (e.state == Shut ==> 0.0 < e.credit <= Budget(c) && e.closedSince.Some?)
    && (e.state == HalfOpen ==> e.probeOutstanding)
    && (e.state != HalfOpen ==> !e.probeOutstanding)
  }

  lemma CreditPositive(c: Config)
    requires Sound(c)
    ensures SuccessCredit(c) > 0.0
  {
  }

  lemma StepsKeep(c: Config, e: Entry, now: int, success: bool, sample: real)
    requires Sound(c) && EntryOK(c, e)
    ensures EntryOK(c, NewEntry(c, now)) && EntryOK(c, Admit(c, e, now).0) && EntryOK(c, Note(c, e, success, now, sample))
  {
    CreditPositive(c);
  }

  // ---------------------------------------------------------------- runs on one entry

  datatype Event = Asked(now: int) | Told(success: bool, now: int, sample: real)

  function Apply(c: Config, e: Entry, ev: Event): Entry
    requires Sound(c)
  {
    match ev
    case Asked(now) => Admit(c, e, now).0
    case Told(success, now, sample) => Note(c, e, success, now, sample)
  }

  function After(c: Config, e: Entry, evs: seq<Event>): Entry
    requires Sound(c)
  {
    if evs == [] then e else Apply(c, After(c, e, evs[..|evs| - 1]), evs[|evs| - 1])
  }

  lemma {:induction false} RunKeeps(c: Config, e: Entry, evs: seq<Event>)
    requires Sound(c) && EntryOK(c, e)
    ensures EntryOK(c, After(c, e, evs))
  {
    if evs != [] {
      var n := |evs| - 1;
      RunKeeps(c, e, evs[..n]);
      var ev := evs[n];
      if ev.Asked? { StepsKeep(c, After(c, e, evs[..n]), ev.now, true, 0.0); }
      else { StepsKeep(c, After(c, e, evs[..n]), ev.now, ev.success, ev.sample); }
    }
  }

  function Count(evs: seq<Event>, success: bool): nat {
    if evs == [] then 0
    else Count(evs[..|evs| - 1], success) + if evs[|evs| - 1].Told? && evs[|evs| - 1].success == success then 1 else 0
  }

  /** The gate was shut before each of the events. */
  ghost predicate ShutThroughout(c: Config, e: Entry, evs: seq<Event>)
    requires Sound(c)
  {
    forall k :: 0 <= k < |evs| ==> After(c, e, evs[..k]).state == Shut
  }

  /** What k successes can earn. */
  function Earned(c: Config, k: nat): real
    requires Sound(c)
  {
    (k as real) * SuccessCredit(c)
  }

  lemma EarnsMore(c: Config, k: nat)
    requires Sound(c)
    ensures Earned(c, k + 1) == Earned(c, k) + SuccessCredit(c) && Earned(c, 0) == 0.0
  {
    hide SuccessCredit;
  }

  lemma EarnsRatio(c: Config, k: nat)
    requires Sound(c)
    ensures Earned(c, k) == (k as real) * (c.ratio / (1.0 - c.ratio))
  {
  }

  lemma {:induction false} CreditWithin(c: Config, e: Entry, evs: seq<Event>)
    requires Sound(c) && EntryOK(c, e) && ShutThroughout(c, e, evs)
    ensures e.credit - (Count(evs, false) as real) <= After(c, e, evs).credit
    ensures After(c, e, evs).credit <= e.credit + Earned(c, Count(evs, true)) - (Count(evs, false) as real)
  {
    hide Earned, SuccessCredit, Apply, EntryOK;
    EarnsMore(c, 0);
    if evs != [] {
      var n := |evs| - 1;
      forall k | 0 <= k < n ensures After(c, e, evs[..n][..k]).state == Shut { assert evs[..n][..k] == evs[..k]; }
      CreditWithin(c, e, evs[..n]);
      RunKeeps(c, e, evs[..n]);
      var was := After(c, e, evs[..n]);
      assert was.state == Shut;
      CreditMoves(c, was, evs[n]);
      EarnsMore(c, Count(evs[..n], true));
    }
  }

  /** Credit lies between what failures alone would leave and what successes could have added. */
  lemma CreditBounds(c: Config, e: Entry, evs: seq<Event>)
    requires Sound(c) && EntryOK(c, e) && ShutThroughout(c, e, evs)
    ensures e.credit - (Count(evs, false) as real) <= After(c, e, evs).credit
    ensures After(c, e, evs).credit <= e.credit + Earned(c, Count(evs, true)) - (Count(evs, false) as real)
    ensures Earned(c, Count(evs, true)) == (Count(evs, true) as real) * (c.ratio / (1.0 - c.ratio))
  {
    hide Earned, After, SuccessCredit, ShutThroughout, Count, EntryOK;
    EarnsRatio(c, Count(evs, true));
    CreditWithin(c, e, evs);
  }

  lemma CreditMoves(c: Config, e: Entry, ev: Event)
    requires Sound(c) && EntryOK(c, e) && e.state == Shut
    ensures ev.Asked? ==> Apply(c, e, ev).credit == e.credit
    ensures ev.Told? && !ev.success ==> Apply(c, e, ev).credit == e.credit - 1.0
    ensures ev.Told? && ev.success ==> e.credit <= Apply(c, e, ev).credit <= e.credit + SuccessCredit(c)
  {
    CreditPositive(c);
  }

  /** Over any stretch on which the gate stays shut, failures stay below the budget plus what the
      successes earned. */
  lemma ShutMeansFewFailures(c: Config, e: Entry, evs: seq<Event>)
    requires Sound(c) && EntryOK(c, e) && ShutThroughout(c, e, evs) && e.state == Shut && After(c, e, evs).state == Shut
    ensures (Count(evs, false) as real) < (c.trip as real) + Earned(c, Count(evs, true))
    ensures Earned(c, Count(evs, true)) == (Count(evs, true) as real) * (c.ratio / (1.0 - c.ratio))
  {
    hide Earned, After;
    CreditBounds(c, e, evs);
    RunKeeps(c, e, evs);
  }

  /** A gate that shut with a full budget needs at least that many failures to open again. */
  lemma TripNeedsFailures(c: Config, e: Entry, evs: seq<Event>)
    requires Sound(c) && EntryOK(c, e) && e.state == Shut && e.credit == Budget(c)
    requires ShutThroughout(c, e, evs) && After(c, e, evs).state == Open
    ensures Count(evs, false) >= c.trip
  {
    CreditBounds(c, e, evs);
    OpensBroke(c, e, evs);
  }

  lemma OpensBroke(c: Config, e: Entry, evs: seq<Event>)
    requires Sound(c) && EntryOK(c, e) && e.state == Shut && ShutThroughout(c, e, evs) && After(c, e, evs).state == Open
    ensures After(c, e, evs).credit <= 0.0
  {
    var n := |evs| - 1;
    assert After(c, e, evs[..n]).state == Shut;
  }

  // ---------------------------------------------------------------- probes

  /** The event is a failed probe of the half-open entry. */
  predicate FailedProbe(e: Entry, ev: Event) { ev.Told? && !ev.success && e.state == HalfOpen && e.probeOutstanding }

  /** The event sets the exponent back. */
  predicate Resets(c: Config, e: Entry, ev: Event) {
    e.state == Shut && e.closedSince.Some? && ev.now >= e.closedSince.value + c.max && !(ev.Told? && ev.success)
  }

  function FailedProbes(c: Config, e: Entry, evs: seq<Event>): nat
    requires Sound(c)
  {
    if evs == [] then 0
    else
      var n := |evs| - 1;
      FailedProbes(c, e, evs[..n]) + if FailedProbe(After(c, e, evs[..n]), evs[n]) then 1 else 0
  }

  ghost predicate NoReset(c: Config, e: Entry, evs: seq<Event>)
    requires Sound(c)
  {
    forall k :: 0 <= k < |evs| ==> !Resets(c, After(c, e, evs[..k]), evs[k])
  }

  /** The exponent counts the failed probes since it was last zero. */
  lemma {:induction false} ExponentCounts(c: Config, e: Entry, evs: seq<Event>)
    requires Sound(c) && NoReset(c, e, evs)
    ensures After(c, e, evs).n == e.n + FailedProbes(c, e, evs)
  {
    hide Cooldown, SuccessCredit;
    if evs != [] {
      var n := |evs| - 1;
      forall k | 0 <= k < n ensures !Resets(c, After(c, e, evs[..n][..k]), evs[..n][k]) { assert evs[..n][..k] == evs[..k]; }
      ExponentCounts(c, e, evs[..n]);
      var was, ev := After(c, e, evs[..n]), evs[n];
      assert !Resets(c, was, ev);
    }
  }

  /** With jitter off, the k-th failed probe since the exponent was zero opens the gate for exactly the
      k-times doubled base cooldown, capped. */
  lemma FailedProbeCooldown(c: Config, e: Entry, evs: seq<Event>, ev: Event, k: nat)
    requires Sound(c) && c.jitter == 0.0 && e.n == 0 && NoReset(c, e, evs)
    requires FailedProbe(After(c, e, evs), ev) && FailedProbes(c, e, evs) == k - 1 && k > 0
    ensures var r := Apply(c, After(c, e, evs), ev);
            r.state == Open && r.openUntil - ev.now == if c.base * Pow2(k) <= c.max then c.base * Pow2(k) else c.max
  {
    ExponentCounts(c, e, evs);
  }

  /** Jitter moves the cooldown by at most its share, and never past the cap. */
  lemma JitterBounds(c: Config, n: nat, sample: real)
    requires Sound(c) && 0.0 <= sample < 1.0
    ensures var d := Doubled(c, n); var r := Cooldown(c, n, sample);
            0 <= r <= c.max && (r as real) <= (d as real) * (1.0 + c.jitter) && (r as real) > (d as real) * (1.0 - c.jitter) - 1.0
  {
    hide Raw, Spread;
    RawGrows(c, n, 0);
    RawDoubles(c, 0);
    var d := Doubled(c, n);
    if c.jitter > 0.0 {
      SpreadBounds(d, c.jitter, sample);
      assert (d as real) <= c.max as real;
    }
  }

  lemma SpreadBounds(d: int, j: real, sample: real)
    requires d > 0 && 0.0 < j < 1.0 && 0.0 <= sample < 1.0
    ensures 0.0 <= (d as real) * (1.0 - j) <= Spread(d, j, sample) <= (d as real) * (1.0 + j)
  {
    Scaled(j, 2.0 * sample - 1.0);
    Between(d as real, 1.0 - j, 1.0 + j * (2.0 * sample - 1.0), 1.0 + j);
    Between(d as real, 0.0, 1.0 - j, 1.0);
  }

  lemma Scaled(j: real, s: real)
    requires 0.0 < j && -1.0 <= s < 1.0
    ensures -j <= j * s < j
  {
    assert j * (s + 1.0) >= 0.0;
    assert j * (1.0 - s) > 0.0;
  }

  lemma Between(d: real, lo: real, x: real, hi: real)
    requires d > 0.0 && lo <= x <= hi
    ensures d * lo <= d * x <= d * hi
  {
    assert d * (x - lo) >= 0.0;
    assert d * (hi - x) >= 0.0;
  }

  // ---------------------------------------------------------------- probes

  /** At event k the gate, not shut, lets an attempt through. */
  ghost predicate Probes(c: Config, e: Entry, evs: seq<Event>, k: nat)
    requires Sound(c)
  {
    && k < |evs| && evs[k].Asked? && After(c, e, evs[..k]).state != Shut
    && Admit(c, After(c, e, evs[..k]), evs[k].now).1
  }

  ghost predicate ToldFrom(evs: seq<Event>, i: nat, k: nat) { exists j :: i < j < k < |evs| && evs[j].Told? }

  ghost predicate FailedFrom(evs: seq<Event>, i: nat, k: nat) { exists j :: i < j < k < |evs| && evs[j].Told? && !evs[j].success }

  /** An attempt is let through within the base cooldown of a probe, by the gate's own clock, only if a report
      came in between; and another probe only if a report of failure did. */
  lemma ProbesAreSpaced(c: Config, e: Entry, evs: seq<Event>, i: nat, k: nat)
    requires Sound(c) && EntryOK(c, e) && Probes(c, e, evs, i) && i < k < |evs| && evs[k].Asked?
    requires forall m :: i < m <= k && evs[m].Asked? ==> evs[m].now < evs[i].now + c.base
    ensures Admit(c, After(c, e, evs[..k]), evs[k].now).1 ==> ToldFrom(evs, i, k)
    ensures Probes(c, e, evs, k) ==> FailedFrom(evs, i, k)
  {
    StillProbing(c, e, evs, i, k, k);
  }

  lemma {:induction false} StillProbing(c: Config, e: Entry, evs: seq<Event>, i: nat, m: nat, k: nat)
    requires Sound(c) && EntryOK(c, e) && Probes(c, e, evs, i) && i < m <= k < |evs|
    requires forall n :: i < n < m && evs[n].Asked? ==> evs[n].now < evs[i].now + c.base
    ensures var r := After(c, e, evs[..m]);
            var held := r.state == HalfOpen && r.probeOutstanding && r.probeUntil == evs[i].now + c.base;
            && (!ToldFrom(evs, i, k) ==> held) && (!FailedFrom(evs, i, k) ==> held || r.state == Shut)
    decreases m
  {
    hide Cooldown, SuccessCredit;
    RunKeeps(c, e, evs[..m - 1]);
    assert evs[..m][..m - 1] == evs[..m - 1];
    if m > i + 1 { StillProbing(c, e, evs, i, m - 1, k); }
  }

  /** What a cooldown is at the least, the fraction of a nanosecond cut off. */
  function Least(c: Config): real { (c.base as real) * (1.0 - c.jitter) - 1.0 }

  /** No probe is let through earlier than that after the time. */
  predicate Guarded(c: Config, e: Entry, since: int) {
    && (e.state == HalfOpen ==> e.probeOutstanding && (e.probeUntil - since) as real > Least(c))
    && (e.state == Open ==> (e.openUntil - since) as real > Least(c))
  }

  lemma LeastCooldown(c: Config, n: nat, sample: real)
    requires Sound(c) && 0.0 <= sample < 1.0
    ensures Cooldown(c, n, sample) as real > Least(c) && c.base as real > Least(c)
  {
    JitterBounds(c, n, sample);
    RawGrows(c, n, 0);
    RawDoubles(c, 0);
    var d := Doubled(c, n);
    assert d >= c.base;
    hide Cooldown, Doubled;
    Shares(c.base as real, d as real, c.jitter);
  }

  lemma Shares(b: real, d: real, j: real)
    requires 0.0 <= b <= d && 0.0 <= j < 1.0
    ensures b * (1.0 - j) <= d * (1.0 - j) && b * (1.0 - j) <= b
  {
    NotNegative(d - b, 1.0 - j);
    NotNegative(b, j);
    assert d * (1.0 - j) - b * (1.0 - j) == (d - b) * (1.0 - j);
    assert b - b * (1.0 - j) == b * j;
  }

  lemma NotNegative(x: real, y: real)
    requires x >= 0.0 && y >= 0.0
    ensures x * y >= 0.0
  {
  }

  lemma StaysGuarded(c: Config, e: Entry, ev: Event, since: int)
    requires Sound(c) && EntryOK(c, e) && Guarded(c, e, since) && since <= ev.now && (ev.Told? ==> 0.0 <= ev.sample < 1.0)
    ensures Guarded(c, Apply(c, e, ev), since)
  {
    LeastCooldown(c, 0, 0.0);
    if ev.Told? {
      LeastCooldown(c, e.n + 1, ev.sample);
      LeastCooldown(c, Rested(c, e, ev.now).n, ev.sample);
    }
    hide Cooldown, SuccessCredit, Least;
  }

  lemma {:induction false} GuardedSince(c: Config, e: Entry, evs: seq<Event>, i: nat, k: nat)
    requires Sound(c) && EntryOK(c, e) && Probes(c, e, evs, i) && i < k <= |evs|
    requires forall m :: i < m < k ==> evs[i].now <= evs[m].now && (evs[m].Told? ==> 0.0 <= evs[m].sample < 1.0)
    ensures Guarded(c, After(c, e, evs[..k]), evs[i].now)
    decreases k
  {
    assert evs[..k][..k - 1] == evs[..k - 1];
    RunKeeps(c, e, evs[..k - 1]);
    if k > i + 1 {
      hide Apply, Guarded;
      GuardedSince(c, e, evs, i, k - 1);
      StaysGuarded(c, After(c, e, evs[..k - 1]), evs[k - 1], evs[i].now);
    } else {
      LeastCooldown(c, 0, 0.0);
    }
  }

  /** Over any run on a clock that does not go back, whatever is reported, two probes are further apart than
      the least cooldown; without jitter that is the base cooldown. */
  lemma ProbesNeverCrowd(c: Config, e: Entry, evs: seq<Event>, i: nat, k: nat)
    requires Sound(c) && EntryOK(c, e) && Probes(c, e, evs, i) && Probes(c, e, evs, k) && i < k
    requires forall m :: i < m < k ==> evs[i].now <= evs[m].now && (evs[m].Told? ==> 0.0 <= evs[m].sample < 1.0)
    ensures (evs[k].now - evs[i].now) as real > Least(c)
    ensures c.jitter == 0.0 ==> evs[k].now >= evs[i].now + c.base
  {
    NoJitter(c);
    hide Least, EntryOK, After;
    GuardedSince(c, e, evs, i, k);
  }

  lemma NoJitter(c: Config)
    ensures c.jitter == 0.0 ==> Least(c) == (c.base - 1) as real
  {
  }
}
