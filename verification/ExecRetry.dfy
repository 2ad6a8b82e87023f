/** The retry loop of simpleredis/commands_exec.go. What the surroundings answer to each attempt is a
    parameter; the loop decides which attempts are made, with which sockets, and what is returned. */
module ExecRetry {
  import opened Basics

  datatype Err = Canceled | DeadlineExceeded | Timeout | Unreachable | PoolWait | Refused | Reply(text: string)

  /** How one attempt goes: the context has stopped it, before or during the backoff; no socket was to
      be had; or the command ran and succeeded or failed. `idleOffered` says whether the pool had an
      idle socket to offer; the attempt runs on it unless the loop asked to skip the idle list. */
  datatype Attempt =
    | Stopped(err: Err)
    | NoSocket(err: Err, handshakeFailed: bool, closed: bool)
    | Ran(failure: Option<Err>, idleOffered: bool)

  datatype Outcome = Success | Failure(err: Err)

  predicate RetryableReply(text: string) {
    || text == "ERR max number of clients reached"
    || "LOADING " <= text || "READONLY " <= text || "MASTERDOWN " <= text || "CLUSTERDOWN " <= text || "TRYAGAIN " <= text
  }

  predicate ShouldRetry(err: Err, handshakeFailed: bool) {
    match err
    case Canceled => false
    case DeadlineExceeded => false
    case Timeout => false
    case Unreachable => !handshakeFailed
    case Reply(text) => !handshakeFailed && RetryableReply(text)
    case _ => false
  }

  /** The attempt ends the command whatever is left of the budget. */
  predicate Final(a: Attempt) {
    match a
    case Stopped(_) => true
    case NoSocket(err, handshakeFailed, closed) => closed || !ShouldRetry(err, handshakeFailed)
    case Ran(failure, _) => failure.None? || !ShouldRetry(failure.value, false)
  }

  /** libraryTimeout: the library's own deadline surfaces as a timeout, the caller's as it is. */
  function Surfaced(err: Err, owned: bool): Err { if owned && err == DeadlineExceeded then Timeout else err }

  function Result(a: Attempt, owned: bool): Outcome {
    match a
    case Stopped(err) => Failure(Surfaced(err, owned))
    case NoSocket(err, _, _) => Failure(Surfaced(err, owned))
    case Ran(failure, _) => if failure.None? then Success else Failure(Surfaced(failure.value, owned))
  }

  /** borrowSocket takes from the idle list only when asked to look there. */
  predicate FromIdle(a: Attempt, skipIdle: bool) { a.Ran? && a.idleOffered && !skipIdle }

  /** The attempt ran on an idle socket that turned out dead. */
  predicate Burned(a: Attempt, skipIdle: bool) { FromIdle(a, skipIdle) && a.failure == Some(Unreachable) }

  /** retryLimits, for the attempt count. */
  function RetryLimit(maxRetries: int): int { if maxRetries == -1 then 0 else if maxRetries == 0 then 3 else maxRetries }

  /** exec: it stops at the first attempt that ends the command or after one more attempt than the limit,
      returns that attempt's result, and skips the idle list from the first dead idle socket on, so that a
      command burns at most one. */
  method Exec(maxRetries: int, owned: bool, answers: seq<Attempt>) returns (outcome: Outcome, made: nat, skipped: seq<bool>)
    requires |answers| == if RetryLimit(maxRetries) < 0 then 0 else RetryLimit(maxRetries) + 1
    ensures made == |skipped| <= |answers| == if maxRetries == -1 then 1 else if maxRetries == 0 then 4 else if maxRetries < -1 then 0 else maxRetries + 1
    ensures forall k :: 0 <= k < made - 1 ==> !Final(answers[k])
    ensures made < |answers| ==> made > 0 && Final(answers[made - 1])
    ensures outcome == if made == 0 then Failure(Timeout) else Result(answers[made - 1], owned)
    ensures forall k :: 0 <= k < made ==> (skipped[k] <==> exists j :: 0 <= j < k && Burned(answers[j], skipped[j]))
    ensures forall j, k :: 0 <= j < k < made && Burned(answers[j], skipped[j]) ==> !FromIdle(answers[k], skipped[k])
  {
    var limit := RetryLimit(maxRetries);
    var last: Option<Err> := None;
    var skipIdle := false;
    made, skipped := 0, [];
    var attempt := 0;
    while attempt <= limit
      invariant 0 <= attempt <= |answers| && made == |skipped| == attempt
      invariant forall k :: 0 <= k < attempt ==> !Final(answers[k])
      invariant attempt == 0 ==> last.None?
      invariant attempt > 0 ==> last.Some? && Result(answers[attempt - 1], owned) == Failure(Surfaced(last.value, owned))
      invariant skipIdle <==> exists j :: 0 <= j < attempt && Burned(answers[j], skipped[j])
      invariant forall k :: 0 <= k < made ==> (skipped[k] <==> exists j :: 0 <= j < k && Burned(answers[j], skipped[j]))
    {
      var answer := answers[attempt];
      made, skipped := made + 1, skipped + [skipIdle];
      match answer {
        case Stopped(err) =>
          return Failure(Surfaced(err, owned)), made, skipped;
        case NoSocket(err, handshakeFailed, closed) =>
          if closed || !ShouldRetry(err, handshakeFailed) { return Failure(Surfaced(err, owned)), made, skipped; }
          last := Some(err);
        case Ran(failure, idleOffered) =>
          var fromIdle := idleOffered && !skipIdle;
          if failure.None? { return Success, made, skipped; }
          if fromIdle && failure.value == Unreachable { skipIdle := true; }
          if !ShouldRetry(failure.value, false) { return Failure(Surfaced(failure.value, owned)), made, skipped; }
          last := failure;
      }
      attempt := attempt + 1;
    }
    if last.Some? { return Failure(Surfaced(last.value, owned)), made, skipped; }
    return Failure(Timeout), made, skipped;
  }

  // ---------------------------------------------------------------- which attempts are made again

  /** A reply that asks to come back: the full sentence about clients, or one of five words and a space. */
  ghost predicate ComesBack(text: string) {
    || text == "ERR max number of clients reached"
    || exists rest: string :: text == "LOADING " + rest || text == "READONLY " + rest || text == "MASTERDOWN " + rest
                              || text == "CLUSTERDOWN " + rest || text == "TRYAGAIN " + rest
  }

  lemma ComesBackIs(text: string)
    ensures RetryableReply(text) <==> ComesBack(text)
  {
    if "LOADING " <= text { assert text == "LOADING " + text[8..]; }
    if "READONLY " <= text { assert text == "READONLY " + text[9..]; }
    if "MASTERDOWN " <= text { assert text == "MASTERDOWN " + text[11..]; }
    if "CLUSTERDOWN " <= text { assert text == "CLUSTERDOWN " + text[12..]; }
    if "TRYAGAIN " <= text { assert text == "TRYAGAIN " + text[9..]; }
  }

  /** An attempt is made again exactly if the peer was unreachable or asked to come back, after a dial that did
      not fail in its handshake and on a client that is not closed. A stopped context, a timeout, a wait for a
      turn that ran out and every other reply end the command. */
  lemma MadeAgainIff(a: Attempt)
    ensures !Final(a) <==>
      match a
      case Stopped(_) => false
      case NoSocket(err, handshakeFailed, closed) => !handshakeFailed && !closed && (err == Unreachable || (err.Reply? && ComesBack(err.text)))
      case Ran(failure, _) => failure.Some? && (failure.value == Unreachable || (failure.value.Reply? && ComesBack(failure.value.text)))
  {
    hide RetryableReply, ComesBack;
    if a.NoSocket? && a.err.Reply? { ComesBackIs(a.err.text); }
    if a.Ran? && a.failure.Some? && a.failure.value.Reply? { ComesBackIs(a.failure.value.text); }
  }

  /** A command succeeds only by an attempt that ran clean, and fails with the error of its last attempt; the
      library's own deadline, and only that, is reported as a timeout instead. */
  lemma ReportedIs(a: Attempt, owned: bool)
    ensures Result(a, owned).Success? <==> a.Ran? && a.failure.None?
    ensures var err := if a.Ran? then a.failure else Some(a.err);
            err.Some? ==> Result(a, owned) == Failure(if err.value == DeadlineExceeded && owned then Timeout else err.value)
  {
  }

  // ---------------------------------------------------------------- backoff

  /** A 64-bit signed integer. */
  function Wrap64(x: int): int { (x + 0x8000_0000_0000_0000) % 0x1_0000_0000_0000_0000 - 0x8000_0000_0000_0000 }

  /** The base shifted left by the attempt's number. */
  function Span(minBackoff: int, retry: nat): int { minBackoff * Pow2(retry) }

  /** A sample below the span. */
  function Rest(sample: int, span: int): int { if span > 0 then sample % span else 0 }

  lemma Unwrapped(x: int)
    requires 0 <= x < 0x8000_0000_0000_0000
    ensures Wrap64(x) == x
  {
  }

  lemma RestFits(sample: int, span: int)
    ensures Rest(sample, span) >= 0 && (span > 0 ==> Rest(sample, span) == sample % span)
  {
  }

  /** Neither the shift nor the addition leaves the 64 bits. */
  predicate Fits(minBackoff: int, retry: int, sample: int)
    requires retry >= 0 && minBackoff > 0
  {
    SpanPositive(minBackoff, retry);
    Span(minBackoff, retry) < 0x8000_0000_0000_0000 && minBackoff + Rest(sample, Span(minBackoff, retry)) < 0x8000_0000_0000_0000
  }

  lemma {:induction false} SpanPositive(minBackoff: int, retry: nat)
    requires minBackoff >= 0
    ensures Pow2(retry) >= 1 && Span(minBackoff, retry) >= minBackoff
  {
    if retry > 0 { SpanPositive(minBackoff, retry - 1); }
  }

  /** retryBackoff: the base plus a sample below its doubled span, capped; whatever wraps, the wait stays between the
      two bounds. */
  method RetryBackoff(retry: int, minBackoff: int, maxBackoff: int, sample: int) returns (wait: int)
    requires 0 <= minBackoff && 0 <= maxBackoff && 0 <= sample
    ensures minBackoff == 0 ==> wait == 0
    ensures minBackoff > 0 ==> wait <= maxBackoff && (minBackoff <= maxBackoff ==> wait >= minBackoff)
    ensures wait >= 0
    ensures minBackoff > 0 && retry < 0 ==> wait == maxBackoff
    ensures minBackoff > 0 && retry >= 0 && Fits(minBackoff, retry, sample) ==>
              var span := minBackoff * Pow2(retry);
              var jittered := minBackoff + Rest(sample, span);
              wait == if jittered <= maxBackoff then jittered else maxBackoff
  {
    hide Wrap64, Pow2;
    if minBackoff == 0 { return 0; }
    if retry < 0 { return maxBackoff; }
    SpanPositive(minBackoff, retry);
    RestFits(sample, Span(minBackoff, retry));
    if Fits(minBackoff, retry, sample) {
      Unwrapped(Span(minBackoff, retry));
      Unwrapped(minBackoff + Rest(sample, Span(minBackoff, retry)));
    }
    assert Span(minBackoff, retry) == minBackoff * Pow2(retry);
    hide Span, Rest;
    var backoff := Wrap64(Span(minBackoff, retry));
    if backoff < minBackoff { return maxBackoff; }
    if backoff > 0 { backoff := Wrap64(minBackoff + Rest(sample, backoff)); }
    if backoff > maxBackoff || backoff < minBackoff { backoff := maxBackoff; }
    return backoff;
  }
}
