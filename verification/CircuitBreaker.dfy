/**
 The circuit breaker (circuitbreaker.go).

 Every method runs under one mutex, so a run is a sequence of calls. Clock readings are arguments;
 `Allow` reads the clock twice, once to compare and once to stamp the probe.
 */
module CircuitBreaker {
  import opened Wrappers

  datatype Circuit = Closed | Open | HalfOpen

  /** Tokens are 64-bit words. 0 means "no probe" and the largest word is the wildcard. */
  const WORDS := 0x1_0000_0000_0000_0000
  const ANY_PROBE := WORDS - 1

  /** How many distinct tokens a probe can be given. */
  const TOKENS := WORDS - 2

  datatype Config = Config(threshold: int, cooldown: int)

  /** `probeStarted` is None for Go's zero time, which every cooldown has long since passed. */
  datatype Breaker = Breaker(circuit: Circuit, failures: int, openedAt: int, probeStarted: Option<int>, probeGen: int)

  const NEW := Breaker(Closed, 0, 0, None, 0)

  datatype Verdict = Verdict(admitted: bool, token: int, after: Breaker)

  function Bump(gen: int): int {
    var next := (gen + 1) % WORDS;
    if next == 0 || next == ANY_PROBE then 1 else next
  }

  function Probe(b: Breaker, stamp: int): Verdict {
    var token := Bump(b.probeGen);
    Verdict(true, token, b.(circuit := HalfOpen, probeStarted := Some(stamp), probeGen := token))
  }

  function Allowed(b: Breaker, cfg: Config, check: int, stamp: int): Verdict {
    match b.circuit
    case Closed => Verdict(true, 0, b)
    case Open => if check - b.openedAt >= cfg.cooldown then Probe(b, stamp) else Verdict(false, 0, b)
    case HalfOpen =>
      if b.probeStarted == None || check - b.probeStarted.value >= cfg.cooldown then Probe(b, stamp)
      else Verdict(false, 0, b)
  }

  predicate IsStranger(b: Breaker, token: int) {
    b.circuit == HalfOpen && token != ANY_PROBE && token != b.probeGen
  }

  function Succeeded(b: Breaker, token: int): Breaker {
    if IsStranger(b, token) then b
    else b.(failures := 0, circuit := if b.circuit == HalfOpen then Closed else b.circuit)
  }

  function Failed(b: Breaker, cfg: Config, token: int, now: int): Breaker {
    if IsStranger(b, token) then b
    else
      var counted := b.(failures := b.failures + 1);
      if b.circuit == HalfOpen || (b.circuit == Closed && counted.failures >= cfg.threshold)
      then counted.(circuit := Open, openedAt := now)
      else counted
  }

  function Released(b: Breaker, token: int): Breaker {
    if token != 0 && b.circuit == HalfOpen && b.probeGen == token then b.(probeStarted := None) else b
  }

  function WasReset(b: Breaker): Breaker {
    b.(failures := 0, circuit := Closed)
  }

  /** The state-change callback a call fires after unlocking, if any. */
  function Change(from: Circuit, to: Circuit): Option<(Circuit, Circuit)> {
    if from == to then None else Some((from, to))
  }

  class Switch {
    const cfg: Config
    var circuit: Circuit
    var failures: int
    var openedAt: int
    var probeStarted: Option<int>
    var probeGen: int

    function View(): Breaker
      reads this
    {
      Breaker(circuit, failures, openedAt, probeStarted, probeGen)
    }

    constructor (cfg: Config)
      ensures View() == NEW && this.cfg == cfg
    {
      this.cfg := cfg;
      circuit, failures, openedAt, probeStarted, probeGen := Closed, 0, 0, None, 0;
    }

    method BumpProbeGen() returns (token: int)
      modifies this`probeGen
      ensures token == probeGen == Bump(old(probeGen))
    {
      probeGen := (probeGen + 1) % WORDS;
      if probeGen == 0 || probeGen == ANY_PROBE {
        probeGen := 1;
      }
      token := probeGen;
    }

    method SetState(to: Circuit) returns (fired: Option<(Circuit, Circuit)>)
      modifies this`circuit
      ensures circuit == to && fired == Change(old(circuit), to)
    {
      var from := circuit;
      if from == to {
        return None;
      }
      circuit := to;
      fired := Some((from, to));
    }

    method Allow(check: int, stamp: int)
      returns (admitted: bool, token: int, fired: Option<(Circuit, Circuit)>)
      modifies this
      ensures Verdict(admitted, token, View()) == Allowed(old(View()), cfg, check, stamp)
      ensures fired == Change(old(circuit), circuit)
    {
      fired := None;
      match circuit {
        case Closed =>
          return true, 0, fired;
        case Open =>
          if check - openedAt >= cfg.cooldown {
            fired := SetState(HalfOpen);
            probeStarted := Some(stamp);
            token := BumpProbeGen();
            return true, token, fired;
          }
          return false, 0, fired;
        case HalfOpen =>
          if probeStarted == None || check - probeStarted.value >= cfg.cooldown {
            probeStarted := Some(stamp);
            token := BumpProbeGen();
            return true, token, fired;
          }
          return false, 0, fired;
      }
    }

    method RecordSuccess(token: int) returns (fired: Option<(Circuit, Circuit)>)
      modifies this
      ensures View() == Succeeded(old(View()), token)
      ensures fired == Change(old(circuit), circuit)
    {
      fired := None;
      if circuit == HalfOpen && token != ANY_PROBE && probeGen != token {
        return;
      }
      failures := 0;
      if circuit == HalfOpen {
        fired := SetState(Closed);
      }
    }

    method RecordFailure(token: int, now: int) returns (fired: Option<(Circuit, Circuit)>)
      modifies this
      ensures View() == Failed(old(View()), cfg, token, now)
      ensures fired == Change(old(circuit), circuit)
    {
      fired := None;
      if circuit == HalfOpen && token != ANY_PROBE && probeGen != token {
        return;
      }
      failures := failures + 1;
      match circuit {
        case Closed =>
          if failures >= cfg.threshold {
            openedAt := now;
            fired := SetState(Open);
          }
        case HalfOpen =>
          openedAt := now;
          fired := SetState(Open);
        case Open =>
      }
    }

    method ReleaseProbe(token: int)
      modifies this`probeStarted
      ensures View() == Released(old(View()), token)
    {
      if token == 0 {
        return;
      }
      if circuit == HalfOpen && probeGen == token {
        probeStarted := None;
      }
    }

    method Reset() returns (fired: Option<(Circuit, Circuit)>)
      modifies this
      ensures View() == WasReset(old(View()))
      ensures fired == Change(old(circuit), circuit)
    {
      failures := 0;
      fired := SetState(Closed);
    }
  }

  // ---------------------------------------------------------------------------------------------
  // Runs
  // ---------------------------------------------------------------------------------------------

  datatype Call =
    | Allow(check: int, stamp: int)
    | Success(token: int)
    | Failure(token: int, now: int)
    | Release(token: int)
    | Reset

  function Step(b: Breaker, cfg: Config, c: Call): Breaker {
    match c
    case Allow(check, stamp) => Allowed(b, cfg, check, stamp).after
    case Success(token) => Succeeded(b, token)
    case Failure(token, now) => Failed(b, cfg, token, now)
    case Release(token) => Released(b, token)
    case Reset => WasReset(b)
  }

  /** The breaker after the first `k` calls. */
  function At(calls: seq<Call>, cfg: Config, k: nat): Breaker
    requires k <= |calls|
  {
    if k == 0 then NEW else Step(At(calls, cfg, k - 1), cfg, calls[k - 1])
  }

  /** The token call `k` was given: 0 unless it was admitted as a probe. */
  function Token(calls: seq<Call>, cfg: Config, k: nat): int
    requires k < |calls|
  {
    if calls[k].Allow? then Allowed(At(calls, cfg, k), cfg, calls[k].check, calls[k].stamp).token else 0
  }

  predicate IsProbe(calls: seq<Call>, cfg: Config, k: nat)
    requires k < |calls|
  {
    Token(calls, cfg, k) != 0
  }

  /** How many probes the first `k` calls admitted. */
  function Probes(calls: seq<Call>, cfg: Config, k: nat): nat
    requires k <= |calls|
  {
    if k == 0 then 0 else Probes(calls, cfg, k - 1) + if IsProbe(calls, cfg, k - 1) then 1 else 0
  }

  /** Call `j` admitted the probe that is current before call `k`. */
  ghost predicate IsCurrentProbe(calls: seq<Call>, cfg: Config, j: int, k: nat)
    requires k <= |calls|
  {
    0 <= j < k && IsProbe(calls, cfg, j) && forall i | j < i < k :: !IsProbe(calls, cfg, i)
  }

  // ---------------------------------------------------------------------------------------------
  // Tokens are identities
  // ---------------------------------------------------------------------------------------------

  /** The token of the n-th probe, counting from 1; 0 before the first. */
  function NthToken(n: nat): int {
    if n == 0 then 0 else (n - 1) % TOKENS + 1
  }

  lemma BumpFollows(n: nat)
    ensures Bump(NthToken(n)) == NthToken(n + 1)
  {
    if n > 0 {
      var r := (n - 1) % TOKENS;
      var q := (n - 1) / TOKENS;
      assert n - 1 == q * TOKENS + r;
      if r + 1 < TOKENS {
        ModuloOf(n, q, r + 1);
      } else {
        ModuloOf(n, q + 1, 0);
      }
    }
  }

  lemma ModuloOf(n: int, q: int, r: int)
    requires n == q * TOKENS + r && 0 <= r < TOKENS
    ensures n % TOKENS == r
  {
    var q', r' := n / TOKENS, n % TOKENS;
    assert n == q' * TOKENS + r';
    assert (q - q') * TOKENS == r' - r;
  }

  /** Two probes share a token only when a full cycle of tokens lies between them. */
  lemma TokensRepeatLate(m: nat, n: nat)
    requires 0 < m <= n && NthToken(m) == NthToken(n)
    ensures m == n || n - m >= TOKENS
  {
    var p, q := (m - 1) / TOKENS, (n - 1) / TOKENS;
    assert m - 1 == p * TOKENS + (m - 1) % TOKENS;
    assert n - 1 == q * TOKENS + (n - 1) % TOKENS;
    assert n - m == (q - p) * TOKENS;
    if q > p {
      assert (q - p) * TOKENS >= TOKENS;
    }
  }

  lemma {:induction false} GenerationCountsProbes(calls: seq<Call>, cfg: Config, k: nat)
    requires k <= |calls|
    ensures At(calls, cfg, k).probeGen == NthToken(Probes(calls, cfg, k))
    ensures At(calls, cfg, k).circuit == HalfOpen ==> Probes(calls, cfg, k) > 0
    ensures k < |calls| && IsProbe(calls, cfg, k) ==> Token(calls, cfg, k) == NthToken(Probes(calls, cfg, k) + 1)
  {
    if k > 0 {
      GenerationCountsProbes(calls, cfg, k - 1);
    }
    BumpFollows(Probes(calls, cfg, k));
    TokenRange(Probes(calls, cfg, k) + 1);
    if k > 0 {
      BumpFollows(Probes(calls, cfg, k - 1));
      TokenRange(Probes(calls, cfg, k - 1) + 1);
    }
  }

  lemma TokenRange(n: nat)
    requires n > 0
    ensures 0 < NthToken(n) < ANY_PROBE
  {
  }

  lemma {:induction false} ProbesMonotone(calls: seq<Call>, cfg: Config, i: nat, k: nat)
    requires i <= k <= |calls|
    ensures Probes(calls, cfg, i) <= Probes(calls, cfg, k)
    decreases k
  {
    if i < k {
      ProbesMonotone(calls, cfg, i, k - 1);
    }
  }

  lemma {:induction false} CurrentProbeExists(calls: seq<Call>, cfg: Config, k: nat) returns (j: int)
    requires k <= |calls| && Probes(calls, cfg, k) > 0
    ensures IsCurrentProbe(calls, cfg, j, k)
    ensures Probes(calls, cfg, j) + 1 == Probes(calls, cfg, k)
  {
    if IsProbe(calls, cfg, k - 1) {
      j := k - 1;
    } else {
      j := CurrentProbeExists(calls, cfg, k - 1);
    }
  }

  /**
   A half-open circuit belongs to one probe. Whoever resolves it with a token, other than the
   wildcard, presents the current probe's token; if that token was handed out by call `a`, and fewer
   than 2^64 - 2 probes were admitted since, then call `a` is the current probe itself.
   */
  lemma OnlyTheOwnerResolves(calls: seq<Call>, cfg: Config, k: nat)
    requires k < |calls| && (calls[k].Success? || calls[k].Failure?) && calls[k].token != ANY_PROBE
    requires At(calls, cfg, k).circuit == HalfOpen
    requires At(calls, cfg, k + 1) != At(calls, cfg, k)
    ensures exists j :: IsCurrentProbe(calls, cfg, j, k) && Token(calls, cfg, j) == calls[k].token
    ensures forall a | 0 <= a < k && IsProbe(calls, cfg, a) && Token(calls, cfg, a) == calls[k].token &&
                       Probes(calls, cfg, k) - Probes(calls, cfg, a + 1) < TOKENS ::
              IsCurrentProbe(calls, cfg, a, k)
  {
    GenerationCountsProbes(calls, cfg, k);
    var j := CurrentProbeExists(calls, cfg, k);
    GenerationCountsProbes(calls, cfg, j);
    forall a | 0 <= a < k && IsProbe(calls, cfg, a) && Token(calls, cfg, a) == calls[k].token &&
               Probes(calls, cfg, k) - Probes(calls, cfg, a + 1) < TOKENS
      ensures a == j
    {
      SameTokenSameProbe(calls, cfg, a, j, k);
    }
  }

  lemma SameTokenSameProbe(calls: seq<Call>, cfg: Config, a: nat, j: nat, k: nat)
    requires a < k <= |calls| && IsCurrentProbe(calls, cfg, j, k)
    requires IsProbe(calls, cfg, a) && Token(calls, cfg, a) == Token(calls, cfg, j)
    requires Probes(calls, cfg, k) - Probes(calls, cfg, a + 1) < TOKENS
    ensures a == j
  {
    GenerationCountsProbes(calls, cfg, a);
    GenerationCountsProbes(calls, cfg, j);
    ProbesMonotone(calls, cfg, j + 1, k);
    if a < j {
      ProbesMonotone(calls, cfg, a + 1, j);
      TokensRepeatLate(Probes(calls, cfg, a) + 1, Probes(calls, cfg, j) + 1);
    }
  }

  /** The bound is exact: one full cycle later the same token comes back. */
  lemma TokensReturnAfterACycle(n: nat)
    requires n > 0
    ensures NthToken(n + TOKENS) == NthToken(n)
  {
    var q, r := (n - 1) / TOKENS, (n - 1) % TOKENS;
    assert n - 1 == q * TOKENS + r;
    assert n + TOKENS - 1 == (q + 1) * TOKENS + r;
    ModuloOf(n + TOKENS - 1, q + 1, r);
  }

  /** Outcomes and releases of requests that hold no probe, or a superseded one, leave no trace. */
  lemma StrangersAreIgnored(calls: seq<Call>, cfg: Config, k: nat)
    requires k < |calls| && At(calls, cfg, k).circuit == HalfOpen
    requires calls[k].Success? || calls[k].Failure? || calls[k].Release?
    requires calls[k].token != ANY_PROBE
    requires forall j | IsCurrentProbe(calls, cfg, j, k) :: calls[k].token != Token(calls, cfg, j)
    ensures At(calls, cfg, k + 1) == At(calls, cfg, k)
  {
    GenerationCountsProbes(calls, cfg, k);
    var j := CurrentProbeExists(calls, cfg, k);
    GenerationCountsProbes(calls, cfg, j);
  }

  /** The owner is never shut out: its success closes, its failure re-opens, its release re-arms. */
  lemma TheOwnerDecides(calls: seq<Call>, cfg: Config, j: nat, k: nat, check: int, stamp: int)
    requires k < |calls| && IsCurrentProbe(calls, cfg, j, k) && At(calls, cfg, k).circuit == HalfOpen
    ensures calls[k] == Success(Token(calls, cfg, j)) ==>
              At(calls, cfg, k + 1).circuit == Closed && At(calls, cfg, k + 1).failures == 0
    ensures calls[k].Failure? && calls[k].token == Token(calls, cfg, j) ==>
              At(calls, cfg, k + 1).circuit == Open && At(calls, cfg, k + 1).openedAt == calls[k].now
    ensures calls[k] == Release(Token(calls, cfg, j)) ==>
              At(calls, cfg, k + 1).circuit == HalfOpen && Allowed(At(calls, cfg, k + 1), cfg, check, stamp).admitted
  {
    CurrentProbeHoldsGeneration(calls, cfg, j, k);
  }

  lemma CurrentProbeHoldsGeneration(calls: seq<Call>, cfg: Config, j: nat, k: nat)
    requires k <= |calls| && IsCurrentProbe(calls, cfg, j, k)
    ensures At(calls, cfg, k).probeGen == Token(calls, cfg, j) > 0
  {
    ProbesMonotone(calls, cfg, j + 1, k);
    GenerationCountsProbes(calls, cfg, k);
    var i := CurrentProbeExists(calls, cfg, k);
    assert i == j;
    GenerationCountsProbes(calls, cfg, j);
    TokenRange(Probes(calls, cfg, k));
  }

  // ---------------------------------------------------------------------------------------------
  // Probe spacing
  // ---------------------------------------------------------------------------------------------

  ghost predicate HasTime(c: Call) {
    c.Allow? || c.Failure?
  }

  function First(c: Call): int
    requires HasTime(c)
  {
    if c.Allow? then c.check else c.now
  }

  function Last(c: Call): int
    requires HasTime(c)
  {
    if c.Allow? then c.stamp else c.now
  }

  /** The clock never runs backwards, within a call or between calls. */
  ghost predicate IsMonotone(calls: seq<Call>) {
    && (forall i | 0 <= i < |calls| && calls[i].Allow? :: calls[i].check <= calls[i].stamp)
    && (forall i, j | 0 <= i < j < |calls| && HasTime(calls[i]) && HasTime(calls[j]) :: Last(calls[i]) <= First(calls[j]))
  }

  ghost predicate WasReleased(calls: seq<Call>, cfg: Config, i: nat, k: nat)
    requires i < |calls| && k <= |calls|
  {
    exists r :: i < r < k && calls[r] == Release(Token(calls, cfg, i))
  }

  /** What the state remembers of the time of its current probe `i`. */
  ghost predicate IsRemembered(b: Breaker, stamp: int, released: bool) {
    && (b.circuit == Open ==> stamp <= b.openedAt)
    && (b.circuit == HalfOpen ==> b.probeStarted == Some(stamp) || (b.probeStarted == None && released))
  }

  lemma {:induction false} CurrentProbeRemembered(calls: seq<Call>, cfg: Config, i: nat, k: nat)
    requires IsMonotone(calls) && k <= |calls| && IsCurrentProbe(calls, cfg, i, k)
    ensures IsRemembered(At(calls, cfg, k), calls[i].stamp, WasReleased(calls, cfg, i, k))
    decreases k
  {
    if k > i + 1 {
      CurrentProbeRemembered(calls, cfg, i, k - 1);
      CurrentProbeHoldsGeneration(calls, cfg, i, k - 1);
      var b, c := At(calls, cfg, k - 1), calls[k - 1];
      assert WasReleased(calls, cfg, i, k) == (WasReleased(calls, cfg, i, k - 1) || c == Release(Token(calls, cfg, i))) by {
        if c == Release(Token(calls, cfg, i)) {
          assert i < k - 1 < k && calls[k - 1] == Release(Token(calls, cfg, i));
        }
      }
      assert HasTime(c) ==> calls[i].stamp <= First(c);
      assert !IsProbe(calls, cfg, k - 1);
      StepRemembers(b, cfg, c, calls[i].stamp, WasReleased(calls, cfg, i, k - 1));
    }
  }

  lemma StepRemembers(b: Breaker, cfg: Config, c: Call, stamp: int, released: bool)
    requires IsRemembered(b, stamp, released)
    requires HasTime(c) ==> stamp <= First(c)
    requires c.Allow? ==> Allowed(b, cfg, c.check, c.stamp).token == 0
    requires 0 <= b.probeGen < WORDS
    ensures IsRemembered(Step(b, cfg, c), stamp, released || c == Release(b.probeGen))
  {
  }

  /**
   Two probes are admitted less than one cooldown apart only if the earlier one's own token was
   released in between, in every run whose clock is monotone.
   */
  lemma {:induction false} ProbesAreSpaced(calls: seq<Call>, cfg: Config, i: nat, j: nat)
    requires IsMonotone(calls) && i < j < |calls|
    requires IsProbe(calls, cfg, i) && IsProbe(calls, cfg, j)
    requires calls[j].stamp - calls[i].stamp < cfg.cooldown
    ensures WasReleased(calls, cfg, i, j)
  {
    if p :| i < p < j && IsProbe(calls, cfg, p) {
      // The next probe after i is closer still.
      assert Last(calls[p]) <= First(calls[j]);
      ProbesAreSpaced(calls, cfg, i, p);
      var r :| i < r < p && calls[r] == Release(Token(calls, cfg, i));
    } else {
      CurrentProbeRemembered(calls, cfg, i, j);
    }
  }
}
