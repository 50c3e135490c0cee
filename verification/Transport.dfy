/**
 Resending HTTP requests (transport.go, DoHTTPWithOptions).

 The network, the clock and the caller's context are parameters: `World` says, for each attempt, what
 came back and whether the wait before the next one is allowed, or cut short. Attempts count from 0.
 */
module Transport {
  import opened Wrappers

  const DEFAULT_ATTEMPTS := 3
  const LEAST_ATTEMPTS := 3

  const REQUEST_TIMEOUT := 408
  const TOO_MANY_REQUESTS := 429
  const INTERNAL_SERVER_ERROR := 500
  const BAD_GATEWAY := 502
  const SERVICE_UNAVAILABLE := 503
  const GATEWAY_TIMEOUT := 504

  datatype Config = Config(disableRetries: bool, maxRetries: int, nonIdempotent: bool)

  /** `isDial`: the connection was never made. `isRetryable` is the library's error classification. */
  datatype Answer = Response(status: int) | Failure(isRetryable: bool, isDial: bool)

  /**
   `builds`: the request could be built. `mayWait`: budget and deadline allow the backoff.
   `isCancelled`: the context was done when the failure came. `isCutShort`: it ended the backoff.
   */
  datatype World = World(
    builds: nat -> bool, answer: nat -> Answer, mayWait: nat -> bool, isCancelled: nat -> bool, isCutShort: nat -> bool)

  datatype Result =
    | Returned(response: nat)
    | NotBuilt
    | Failed(attempt: nat)
    | Cancelled
    | Exhausted

  /** What one call did: its result, the attempts dispatched, the response bodies closed, in order. */
  datatype Trace = Trace(result: Result, sent: nat, closed: seq<nat>)

  predicate IsRetryableStatus(status: int) {
    status == REQUEST_TIMEOUT || status == TOO_MANY_REQUESTS || status == INTERNAL_SERVER_ERROR
    || status == BAD_GATEWAY || status == SERVICE_UNAVAILABLE || status == GATEWAY_TIMEOUT
  }

  predicate IsSafeStatus(status: int) {
    status == TOO_MANY_REQUESTS || status == SERVICE_UNAVAILABLE
  }

  function Attempts(cfg: Config): (n: nat)
    ensures n > 0
  {
    if cfg.disableRetries then 1
    else
      var wanted := if cfg.maxRetries <= 0 then DEFAULT_ATTEMPTS else cfg.maxRetries;
      if wanted < LEAST_ATTEMPTS then LEAST_ATTEMPTS else wanted
  }

  /** How attempt `n` ends the call, or None when the loop goes on to the next one. */
  function Ending(cfg: Config, w: World, n: nat): Option<Result> {
    if !w.builds(n) then Some(NotBuilt)
    else
      match w.answer(n)
      case Response(status) =>
        if !IsRetryableStatus(status) || (cfg.nonIdempotent && !IsSafeStatus(status))
           || n + 1 == Attempts(cfg) || !w.mayWait(n) then Some(Returned(n))
        else if w.isCutShort(n) then Some(Cancelled)
        else None
      case Failure(isRetryable, isDial) =>
        if w.isCancelled(n) then Some(Cancelled)
        else if !isRetryable || (cfg.nonIdempotent && !isDial) || n + 1 == Attempts(cfg) || !w.mayWait(n)
        then Some(Failed(n))
        else if w.isCutShort(n) then Some(Cancelled)
        else None
  }

  /** The responses among the first `n` attempts. */
  function Responses(w: World, n: nat): seq<nat> {
    if n == 0 then [] else Responses(w, n - 1) + if w.answer(n - 1).Response? then [n - 1] else []
  }

  ghost predicate GoesOn(cfg: Config, w: World, n: nat) {
    forall k | 0 <= k < n :: Ending(cfg, w, k) == None
  }

  /** The method below is proved to return the trace of the first attempt that ends the call. */
  ghost predicate IsTrace(cfg: Config, w: World, t: Trace) {
    if t.result.NotBuilt? then
      GoesOn(cfg, w, t.sent) && Ending(cfg, w, t.sent) == Some(NotBuilt) && t.closed == Responses(w, t.sent)
    else
      && t.sent > 0 && GoesOn(cfg, w, t.sent - 1) && Ending(cfg, w, t.sent - 1) == Some(t.result)
      && t.closed == if t.result.Returned? then Responses(w, t.sent - 1) else Responses(w, t.sent)
  }

  lemma FirstEnding(cfg: Config, w: World, i: nat, j: nat)
    requires GoesOn(cfg, w, i) && GoesOn(cfg, w, j) && Ending(cfg, w, i) != None && Ending(cfg, w, j) != None
    ensures i == j
  {
  }

  /** There is one first attempt that ends the call. */
  lemma TraceIsUnique(cfg: Config, w: World, t: Trace, u: Trace)
    requires IsTrace(cfg, w, t) && IsTrace(cfg, w, u)
    ensures t == u
  {
    var i := if t.result.NotBuilt? then t.sent else t.sent - 1;
    var j := if u.result.NotBuilt? then u.sent else u.sent - 1;
    FirstEnding(cfg, w, i, j);
  }

  method DoHttp(cfg: Config, w: World) returns (t: Trace)
    ensures IsTrace(cfg, w, t) && forall u :: IsTrace(cfg, w, u) ==> u == t
    ensures t.sent <= Attempts(cfg)
  {
    forall u, v | IsTrace(cfg, w, u) && IsTrace(cfg, w, v) ensures u == v {
      TraceIsUnique(cfg, w, u, v);
    }
    var attempts := 1;
    if !cfg.disableRetries {
      attempts := cfg.maxRetries;
      if attempts <= 0 {
        attempts := DEFAULT_ATTEMPTS;
      }
      if attempts < LEAST_ATTEMPTS {
        attempts := LEAST_ATTEMPTS;
      }
    }
    var closed: seq<nat> := [];
    var attempt := 0;
    while attempt < attempts
      invariant attempts == Attempts(cfg) && attempt < attempts
      invariant GoesOn(cfg, w, attempt) && closed == Responses(w, attempt)
    {
      if !w.builds(attempt) {
        return Trace(NotBuilt, attempt, closed);
      }
      match w.answer(attempt) {
        case Response(status) =>
          if !IsRetryableStatus(status) {
            return Trace(Returned(attempt), attempt + 1, closed);
          }
          if cfg.nonIdempotent && !IsSafeStatus(status) {
            return Trace(Returned(attempt), attempt + 1, closed);
          }
          if attempt + 1 == attempts || !w.mayWait(attempt) {
            return Trace(Returned(attempt), attempt + 1, closed);
          }
          closed := closed + [attempt];
        case Failure(isRetryable, isDial) =>
          if w.isCancelled(attempt) {
            return Trace(Cancelled, attempt + 1, closed);
          }
          if isRetryable && cfg.nonIdempotent && !isDial {
            return Trace(Failed(attempt), attempt + 1, closed);
          }
          if !isRetryable {
            return Trace(Failed(attempt), attempt + 1, closed);
          }
          if attempt + 1 == attempts || !w.mayWait(attempt) {
            return Trace(Failed(attempt), attempt + 1, closed);
          }
      }
      if w.isCutShort(attempt) {
        return Trace(Cancelled, attempt + 1, closed);
      }
      attempt := attempt + 1;
    }
    assert false;
  }

  // ---------------------------------------------------------------------------------------------
  // What a trace cannot do
  // ---------------------------------------------------------------------------------------------

  /** The provider certainly did not act: it rejected the request, or was never reached. */
  predicate WasRefused(a: Answer) {
    match a
    case Response(status) => status == 429 || status == 503
    case Failure(_, isDial) => isDial
  }

  lemma GoesOnFrom(cfg: Config, w: World, t: Trace, n: nat)
    requires IsTrace(cfg, w, t) && n + 1 < t.sent
    ensures Ending(cfg, w, n) == None
  {
  }

  /**
   A further attempt of a non-idempotent request goes out only after every earlier one was refused,
   so at most one attempt of the whole call can have been acted on, and it is the last.
   */
  lemma ResendsOnlyAfterRefusal(cfg: Config, w: World, t: Trace, n: nat)
    requires IsTrace(cfg, w, t) && cfg.nonIdempotent && n < t.sent
    ensures n + 1 < t.sent || t.result.NotBuilt? ==> WasRefused(w.answer(n))
    ensures !WasRefused(w.answer(n)) ==> n == t.sent - 1
  {
    assert n + 1 < t.sent || t.result.NotBuilt? ==> Ending(cfg, w, n) == None;
  }

  /** An idempotent request goes on only after a retryable status or a retryable failure. */
  lemma ResendsOnlyWhatMayPass(cfg: Config, w: World, t: Trace, n: nat)
    requires IsTrace(cfg, w, t) && n + 1 < t.sent
    ensures w.mayWait(n) && !w.isCutShort(n) &&
            match w.answer(n)
            case Response(status) => IsRetryableStatus(status)
            case Failure(isRetryable, _) => isRetryable && !w.isCancelled(n)
  {
    GoesOnFrom(cfg, w, t, n);
  }

  /** The statement after the loop is never reached, and attempts stay within the bound. */
  lemma LoopAlwaysReturns(cfg: Config, w: World, t: Trace)
    requires IsTrace(cfg, w, t)
    ensures !t.result.Exhausted? && t.sent <= Attempts(cfg)
    ensures t.result.Returned? ==> t.result.response == t.sent - 1 && w.answer(t.sent - 1).Response?
    ensures t.result.Failed? ==> t.result.attempt == t.sent - 1 && w.answer(t.sent - 1).Failure?
  {
    assert Ending(cfg, w, Attempts(cfg) - 1) != None;
  }

  lemma {:induction false} ResponsesAre(w: World, n: nat, k: nat)
    ensures multiset(Responses(w, n))[k] == if k < n && w.answer(k).Response? then 1 else 0
  {
    if n > 0 {
      ResponsesAre(w, n - 1, k);
    }
  }

  /** Every response received is either handed to the caller or has its body closed, exactly once. */
  lemma BodiesAreClosedOnce(cfg: Config, w: World, t: Trace, n: nat)
    requires IsTrace(cfg, w, t)
    ensures multiset(t.closed)[n] ==
            if n < t.sent && w.answer(n).Response? && t.result != Returned(n) then 1 else 0
  {
    ResponsesAre(w, if t.result.Returned? then t.sent - 1 else t.sent, n);
  }
}
