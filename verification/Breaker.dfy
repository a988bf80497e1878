/** One provider's failure tracking: a three-state circuit breaker, the older "temporarily
    down" flag beside it, the escalation for rejected credentials, and the availability
    check that reads them all. Each critical section of the manager is one step. */
module Breaker {
  import opened Arithmetic
  import opened RateLimiter

  datatype BreakerConfig = BreakerConfig(enabled: bool, failureThreshold: int, successThreshold: int,
                                         timeout: int, halfOpenMaxCalls: int)
  datatype ChainConfig = ChainConfig(breaker: BreakerConfig, healthEnabled: bool, rate: RateLimitConfig)

  const AuthFailureThreshold := 3
  const AuthFailureTimeout := 600_000_000_000  // ten minutes in nanoseconds

  datatype Phase = CLOSED | OPEN | HALF_OPEN

  datatype FailureInfo = FailureInfo(consecutiveFailures: int, lastFailureTime: int, temporarilyDown: bool,
                                     totalFailures: nat, totalSuccesses: nat, consecutiveAuthFailures: nat)
  datatype CircuitState = CircuitState(state: Phase, lastStateChange: int, consecutiveFailures: int,
                                       consecutiveSuccesses: int, halfOpenCalls: int)
  datatype Provider = Provider(failure: FailureInfo, circuit: CircuitState, healthy: bool, limiter: Limiter)

  const NoFailures := FailureInfo(0, 0, false, 0, 0, 0)

  function NewCircuit(now: int): CircuitState { CircuitState(CLOSED, now, 0, 0, 0) }

  function NewProvider(cfg: ChainConfig, now: int): Provider {
    Provider(NoFailures, NewCircuit(now), true, NewLimiter(cfg.rate.burstSize, now))
  }

  // ---- the availability check ----

  datatype Verdict<T> = Verdict(value: T, ok: bool)

  function LegacyCheck(b: BreakerConfig, f: FailureInfo, now: int): Verdict<FailureInfo> {
    if !f.temporarilyDown then Verdict(f, true)
    else if now - f.lastFailureTime >= b.timeout then
      Verdict(f.(temporarilyDown := false, consecutiveFailures := 0), true)
    else Verdict(f, false)
  }

  function OpenTimeout(b: BreakerConfig, f: FailureInfo): int {
    if f.consecutiveAuthFailures >= AuthFailureThreshold then AuthFailureTimeout else b.timeout
  }

  function CircuitCheck(b: BreakerConfig, c: CircuitState, timeout: int, now: int): Verdict<CircuitState> {
    if !b.enabled then Verdict(c, true)
    else match c.state
      case CLOSED => Verdict(c, true)
      case OPEN =>
        if now - c.lastStateChange >= timeout then
          Verdict(c.(state := HALF_OPEN, lastStateChange := now, halfOpenCalls := 0), true)
        else Verdict(c, false)
      case HALF_OPEN => Verdict(c, c.halfOpenCalls < b.halfOpenMaxCalls)
  }

  /** `legacy` is false for the code with the "temporarily down" check deleted. */
  function Choose(cfg: ChainConfig, p: Provider, now: int, legacy: bool): Verdict<Provider>
    requires WellPosed(cfg.rate)
  {
    var f := if legacy then LegacyCheck(cfg.breaker, p.failure, now) else Verdict(p.failure, true);
    if !f.ok then Verdict(p, false)
    else
      var c := CircuitCheck(cfg.breaker, p.circuit, OpenTimeout(cfg.breaker, f.value), now);
      var q := p.(failure := f.value, circuit := c.value);
      if !c.ok || (cfg.healthEnabled && !p.healthy) then Verdict(q, false)
      else if !cfg.rate.enabled then Verdict(q, true)
      else
        var r := Check(cfg.rate, p.limiter, now);
        Verdict(q.(limiter := r.limiter), r.ok)
  }

  // ---- recorded outcomes ----

  function FailureAfterSuccess(f: FailureInfo): FailureInfo {
    f.(consecutiveFailures := 0, temporarilyDown := false, totalSuccesses := f.totalSuccesses + 1,
       consecutiveAuthFailures := 0)
  }

  function CircuitAfterSuccess(b: BreakerConfig, c: CircuitState, now: int): CircuitState {
    if !b.enabled then c
    else
      var n := c.consecutiveSuccesses + 1;
      var c' := c.(consecutiveFailures := 0, consecutiveSuccesses := n);
      if c.state.HALF_OPEN? && n >= b.successThreshold
      then c'.(state := CLOSED, lastStateChange := now, halfOpenCalls := 0) else c'
  }

  function Succeed(cfg: ChainConfig, p: Provider, now: int): Provider {
    p.(failure := FailureAfterSuccess(p.failure),
       circuit := CircuitAfterSuccess(cfg.breaker, p.circuit, now),
       limiter := Record(cfg.rate, p.limiter, now))
  }

  function FailureAfterFailure(b: BreakerConfig, f: FailureInfo, now: int): FailureInfo {
    var n := f.consecutiveFailures + 1;
    f.(consecutiveFailures := n, lastFailureTime := now, totalFailures := f.totalFailures + 1,
       temporarilyDown := f.temporarilyDown || n >= b.failureThreshold)
  }

  function CircuitAfterFailure(b: BreakerConfig, c: CircuitState, now: int): CircuitState {
    if !b.enabled then c
    else
      var n := c.consecutiveFailures + 1;
      var c' := c.(consecutiveFailures := n, consecutiveSuccesses := 0,
                   halfOpenCalls := if c.state.HALF_OPEN? then c.halfOpenCalls + 1 else c.halfOpenCalls);
      if n >= b.failureThreshold then c'.(state := OPEN, lastStateChange := now) else c'
  }

  function CircuitAfterAuthFailure(b: BreakerConfig, c: CircuitState, auths: nat, now: int): CircuitState {
    if b.enabled && auths >= AuthFailureThreshold then c.(state := OPEN, lastStateChange := now) else c
  }

  function Fail(cfg: ChainConfig, p: Provider, now: int, auth: bool): Provider {
    var f := FailureAfterFailure(cfg.breaker, p.failure, now);
    var c := CircuitAfterFailure(cfg.breaker, p.circuit, now);
    if !auth then p.(failure := f, circuit := c)
    else
      var auths := f.consecutiveAuthFailures + 1;
      p.(failure := f.(consecutiveAuthFailures := auths),
         circuit := CircuitAfterAuthFailure(cfg.breaker, c, auths, now))
  }

  // ---- runs ----

  datatype Act = Select(now: int) | Success(now: int) | Failure(now: int, auth: bool)

  function Step(cfg: ChainConfig, p: Provider, a: Act, legacy: bool): Provider
    requires WellPosed(cfg.rate)
  {
    match a
    case Select(now) => Choose(cfg, p, now, legacy).value
    case Success(now) => Succeed(cfg, p, now)
    case Failure(now, auth) => Fail(cfg, p, now, auth)
  }

  function Run(cfg: ChainConfig, p: Provider, acts: seq<Act>, legacy: bool): Provider
    requires WellPosed(cfg.rate)
  {
    if acts == [] then p else Step(cfg, Run(cfg, p, acts[..|acts| - 1], legacy), acts[|acts| - 1], legacy)
  }

  /** The answers given along a run. */
  function Answers(cfg: ChainConfig, p: Provider, acts: seq<Act>, legacy: bool): seq<bool>
    requires WellPosed(cfg.rate)
  {
    if acts == [] then []
    else
      var init, last := acts[..|acts| - 1], acts[|acts| - 1];
      var before := Answers(cfg, p, init, legacy);
      if last.Select? then before + [Choose(cfg, Run(cfg, p, init, legacy), last.now, legacy).ok] else before
  }

  lemma {:induction false} RunAppend(cfg: ChainConfig, p: Provider, a: seq<Act>, b: seq<Act>, legacy: bool)
    requires WellPosed(cfg.rate)
    ensures Run(cfg, p, a + b, legacy) == Run(cfg, Run(cfg, p, a, legacy), b, legacy)
  {
    if b == [] {
      assert a + b == a;
    } else {
      RunAppend(cfg, p, a, b[..|b| - 1], legacy);
      assert (a + b)[..|a + b| - 1] == a + b[..|b| - 1];
    }
  }

  /** Act `j` of the run is a selection that takes the provider. */
  predicate Admitted(cfg: ChainConfig, p: Provider, acts: seq<Act>, j: int)
    requires WellPosed(cfg.rate)
  {
    0 <= j < |acts| && acts[j].Select? && Choose(cfg, Run(cfg, p, acts[..j], true), acts[j].now, true).ok
  }

  /** Outcomes come only after an admitted selection. */
  ghost predicate Causal(cfg: ChainConfig, p: Provider, acts: seq<Act>)
    requires WellPosed(cfg.rate)
  {
    forall i :: 0 <= i < |acts| && !acts[i].Select? ==> exists j :: j < i && Admitted(cfg, p, acts, j)
  }

  lemma CausalFromFirst(cfg: ChainConfig, p: Provider, acts: seq<Act>)
    requires WellPosed(cfg.rate) && acts != [] && acts[0].Select? && Choose(cfg, p, acts[0].now, true).ok
    ensures Causal(cfg, p, acts)
  {
    assert acts[..0] == [];
    assert Admitted(cfg, p, acts, 0);
  }

  predicate Ordered(start: int, acts: seq<Act>) {
    (forall i :: 0 <= i < |acts| ==> start <= acts[i].now)
    && forall i, j :: 0 <= i < j < |acts| ==> acts[i].now <= acts[j].now
  }

  function Now(start: int, acts: seq<Act>): int {
    if acts == [] then start else acts[|acts| - 1].now
  }

  // ---- counters are history ----

  function TrailingFailures(acts: seq<Act>): nat {
    if acts == [] then 0
    else
      var rest := TrailingFailures(acts[..|acts| - 1]);
      match acts[|acts| - 1] case Select(_) => rest case Success(_) => 0 case Failure(_, _) => rest + 1
  }

  function TrailingSuccesses(acts: seq<Act>): nat {
    if acts == [] then 0
    else
      var rest := TrailingSuccesses(acts[..|acts| - 1]);
      match acts[|acts| - 1] case Select(_) => rest case Success(_) => rest + 1 case Failure(_, _) => 0
  }

  function AuthFailuresSinceSuccess(acts: seq<Act>): nat {
    if acts == [] then 0
    else
      var rest := AuthFailuresSinceSuccess(acts[..|acts| - 1]);
      match acts[|acts| - 1]
      case Select(_) => rest case Success(_) => 0 case Failure(_, auth) => if auth then rest + 1 else rest
  }

  function Count(acts: seq<Act>, success: bool): nat {
    if acts == [] then 0
    else
      var a := acts[|acts| - 1];
      Count(acts[..|acts| - 1], success) + (if (if success then a.Success? else a.Failure?) then 1 else 0)
  }

  /** Every counter is a function of the outcome history. */
  lemma {:induction false} CountersAreHistory(cfg: ChainConfig, start: int, acts: seq<Act>)
    requires WellPosed(cfg.rate)
    ensures var p := Run(cfg, NewProvider(cfg, start), acts, true);
            && p.failure.consecutiveAuthFailures == AuthFailuresSinceSuccess(acts)
            && p.failure.totalFailures == Count(acts, false) && p.failure.totalSuccesses == Count(acts, true)
            && p.failure.consecutiveFailures <= TrailingFailures(acts)
            && (cfg.breaker.enabled ==>
                  && p.circuit.consecutiveFailures == TrailingFailures(acts)
                  && p.circuit.consecutiveSuccesses == TrailingSuccesses(acts))
  {
    if acts != [] { CountersAreHistory(cfg, start, acts[..|acts| - 1]); }
  }

  /** The time of the last failure. */
  function LastFailure(acts: seq<Act>): int {
    if acts == [] then 0
    else if acts[|acts| - 1].Failure? then acts[|acts| - 1].now else LastFailure(acts[..|acts| - 1])
  }

  lemma {:induction false} FailureTimeIsHistory(cfg: ChainConfig, start: int, acts: seq<Act>)
    requires WellPosed(cfg.rate)
    ensures Run(cfg, NewProvider(cfg, start), acts, true).failure.lastFailureTime == LastFailure(acts)
  {
    if acts != [] { FailureTimeIsHistory(cfg, start, acts[..|acts| - 1]); }
  }

  /** How long an open circuit waits, read off the history. */
  function Wait(b: BreakerConfig, acts: seq<Act>): int {
    if AuthFailuresSinceSuccess(acts) >= AuthFailureThreshold then AuthFailureTimeout else b.timeout
  }

  /** The circuit's next state, time of change and probe count, read off the history: it closes
      from half-open on enough trailing successes, opens (or opens anew) on enough trailing
      failures or a third credential failure since the last success, and half-opens exactly on a
      selection after the wait that the flag does not refuse; failures in half-open are the
      probes counted. */
  lemma {:induction false} TransitionsFollowHistory(cfg: ChainConfig, start: int, acts: seq<Act>, a: Act)
    requires WellPosed(cfg.rate) && cfg.breaker.enabled
    ensures var p := Run(cfg, NewProvider(cfg, start), acts, true);
            var c, c' := p.circuit, Run(cfg, NewProvider(cfg, start), acts + [a], true).circuit;
            var h := acts + [a];
            match a
            case Success(now) =>
              var closes := c.state.HALF_OPEN? && TrailingSuccesses(h) >= cfg.breaker.successThreshold;
              && c'.state == (if closes then CLOSED else c.state)
              && c'.lastStateChange == (if closes then now else c.lastStateChange)
              && c'.halfOpenCalls == (if closes then 0 else c.halfOpenCalls)
            case Failure(now, auth) =>
              var opens := TrailingFailures(h) >= cfg.breaker.failureThreshold
                           || (auth && AuthFailuresSinceSuccess(h) >= AuthFailureThreshold);
              && c'.state == (if opens then OPEN else c.state)
              && c'.lastStateChange == (if opens then now else c.lastStateChange)
              && c'.halfOpenCalls == (if c.state.HALF_OPEN? then c.halfOpenCalls + 1 else c.halfOpenCalls)
            case Select(now) =>
              var flagged := p.failure.temporarilyDown && now - LastFailure(acts) < cfg.breaker.timeout;
              var halves := c.state.OPEN? && !flagged && now - c.lastStateChange >= Wait(cfg.breaker, acts);
              && c'.state == (if halves then HALF_OPEN else c.state)
              && c'.lastStateChange == (if halves then now else c.lastStateChange)
              && c'.halfOpenCalls == (if halves then 0 else c.halfOpenCalls)
  {
    var p := NewProvider(cfg, start);
    assert Run(cfg, p, acts + [a], true) == Step(cfg, Run(cfg, p, acts, true), a, true) by {
      assert (acts + [a])[..|acts|] == acts;
    }
    CountersAreHistory(cfg, start, acts);
    CountersAreHistory(cfg, start, acts + [a]);
    FailureTimeIsHistory(cfg, start, acts);
    hide Run, TrailingFailures, TrailingSuccesses, AuthFailuresSinceSuccess, Count, Check;
  }

  /** What outcomes and checks do to the flag and the limiter: a success lowers the flag and counts
      as a request; a failure raises the flag once enough have come in a row since it was last
      lowered, and is no request; a check after the cooldown lowers it. */
  lemma FlagMeaning(cfg: ChainConfig, p: Provider, now: int, auth: bool)
    requires WellPosed(cfg.rate)
    ensures var s := Succeed(cfg, p, now);
            && !s.failure.temporarilyDown && s.failure.consecutiveFailures == 0
            && (cfg.rate.enabled ==> s.limiter.requestTimes == p.limiter.requestTimes + [now])
    ensures var f := Fail(cfg, p, now, auth);
            && f.failure.consecutiveFailures == p.failure.consecutiveFailures + 1 && f.limiter == p.limiter
            && (f.failure.temporarilyDown <==>
                  p.failure.temporarilyDown || f.failure.consecutiveFailures >= cfg.breaker.failureThreshold)
    ensures var c := Choose(cfg, p, now, true).value;
            var cooled := p.failure.temporarilyDown && now - p.failure.lastFailureTime >= cfg.breaker.timeout;
            c.failure == if cooled then p.failure.(temporarilyDown := false, consecutiveFailures := 0) else p.failure
  {
    hide Check;
  }

  /** A check takes the provider exactly when no reason stands against it: the flag within its
      cooldown, an open circuit within its wait, a half-open one without probes left, bad health
      where health counts, or the rate limit. */
  lemma ChooseIff(cfg: ChainConfig, p: Provider, now: int)
    requires WellPosed(cfg.rate)
    ensures var b := cfg.breaker;
            var wait := if p.failure.consecutiveAuthFailures >= 3 then 600_000_000_000 else b.timeout;
            Choose(cfg, p, now, true).ok <==>
              && !(p.failure.temporarilyDown && now - p.failure.lastFailureTime < b.timeout)
              && !(b.enabled && p.circuit.state.OPEN? && now - p.circuit.lastStateChange < wait)
              && !(b.enabled && p.circuit.state.HALF_OPEN? && p.circuit.halfOpenCalls >= b.halfOpenMaxCalls)
              && !(cfg.healthEnabled && !p.healthy)
              && !(cfg.rate.enabled && !Check(cfg.rate, p.limiter, now).ok)
  {
    hide Check;
  }

  /** An open provider is refused before its wait is over. */
  lemma OpenIsRefused(cfg: ChainConfig, p: Provider, now: int)
    requires WellPosed(cfg.rate) && cfg.breaker.enabled && p.circuit.state.OPEN?
    requires now - p.circuit.lastStateChange < cfg.breaker.timeout
    requires now - p.circuit.lastStateChange < AuthFailureTimeout
    ensures !Choose(cfg, p, now, true).ok && Choose(cfg, p, now, true).value.circuit == p.circuit
  {
  }

  // ---- the "temporarily down" flag is redundant ----

  /** The legacy flag is only up while the circuit is open, and was raised no later. */
  predicate LegacyInv(b: BreakerConfig, p: Provider, now: int) {
    && p.circuit.lastStateChange <= now
    && 0 <= p.circuit.consecutiveFailures && p.failure.consecutiveFailures <= p.circuit.consecutiveFailures
    && (p.failure.temporarilyDown ==>
          && p.failure.consecutiveFailures >= b.failureThreshold
          && p.circuit.state.OPEN?
          && p.failure.lastFailureTime <= p.circuit.lastStateChange)
  }

  lemma LegacyStep(cfg: ChainConfig, p: Provider, before: int, a: Act)
    requires WellPosed(cfg.rate) && cfg.breaker.enabled && cfg.breaker.timeout <= AuthFailureTimeout
    requires LegacyInv(cfg.breaker, p, before) && before <= a.now
    ensures LegacyInv(cfg.breaker, Step(cfg, p, a, true), a.now)
  {
  }

  /** In every reachable state the flag implies an open circuit that changed state no
      earlier than the last failure. */
  lemma {:induction false} DownImpliesOpen(cfg: ChainConfig, start: int, acts: seq<Act>)
    requires WellPosed(cfg.rate) && Ordered(start, acts)
    requires cfg.breaker.enabled && cfg.breaker.timeout <= AuthFailureTimeout
    ensures LegacyInv(cfg.breaker, Run(cfg, NewProvider(cfg, start), acts, true), Now(start, acts))
  {
    if acts != [] {
      var init := acts[..|acts| - 1];
      DownImpliesOpen(cfg, start, init);
      LegacyStep(cfg, Run(cfg, NewProvider(cfg, start), init, true), Now(start, init), acts[|acts| - 1]);
    }
  }

  /** What the two programs share: everything but the flag and its counter. */
  predicate SameButLegacy(p: Provider, q: Provider) {
    && p.circuit == q.circuit && p.healthy == q.healthy && p.limiter == q.limiter
    && p.failure.consecutiveAuthFailures == q.failure.consecutiveAuthFailures
  }

  lemma {:induction false} DeletionSimulates(cfg: ChainConfig, start: int, acts: seq<Act>)
    requires WellPosed(cfg.rate) && Ordered(start, acts)
    requires cfg.breaker.enabled && cfg.breaker.timeout <= AuthFailureTimeout
    ensures SameButLegacy(Run(cfg, NewProvider(cfg, start), acts, true), Run(cfg, NewProvider(cfg, start), acts, false))
    ensures Answers(cfg, NewProvider(cfg, start), acts, true) == Answers(cfg, NewProvider(cfg, start), acts, false)
  {
    if acts != [] {
      var init, a := acts[..|acts| - 1], acts[|acts| - 1];
      DeletionSimulates(cfg, start, init);
      DownImpliesOpen(cfg, start, init);
      var p, q := Run(cfg, NewProvider(cfg, start), init, true), Run(cfg, NewProvider(cfg, start), init, false);
      if a.Select? { SameAnswer(cfg, p, q, Now(start, init), a.now); } else { SameOutcome(cfg, p, q, a); }
    }
  }

  lemma SameAnswer(cfg: ChainConfig, p: Provider, q: Provider, before: int, now: int)
    requires WellPosed(cfg.rate) && cfg.breaker.enabled && cfg.breaker.timeout <= AuthFailureTimeout
    requires LegacyInv(cfg.breaker, p, before) && SameButLegacy(p, q)
    ensures Choose(cfg, p, now, true).ok == Choose(cfg, q, now, false).ok
    ensures SameButLegacy(Choose(cfg, p, now, true).value, Choose(cfg, q, now, false).value)
  {
  }

  lemma SameOutcome(cfg: ChainConfig, p: Provider, q: Provider, a: Act)
    requires WellPosed(cfg.rate) && SameButLegacy(p, q) && !a.Select?
    ensures SameButLegacy(Step(cfg, p, a, true), Step(cfg, q, a, false))
  {
  }

  /** With the breaker off and no cooldown, the flag never survives a check either. */
  lemma {:induction false} DeletionSimulatesDisabled(cfg: ChainConfig, start: int, acts: seq<Act>)
    requires WellPosed(cfg.rate) && Ordered(start, acts) && !cfg.breaker.enabled && cfg.breaker.timeout <= 0
    ensures var p := Run(cfg, NewProvider(cfg, start), acts, true);
            && SameButLegacy(p, Run(cfg, NewProvider(cfg, start), acts, false))
            && (p.failure.temporarilyDown ==> p.failure.lastFailureTime <= Now(start, acts))
    ensures Answers(cfg, NewProvider(cfg, start), acts, true) == Answers(cfg, NewProvider(cfg, start), acts, false)
  {
    if acts != [] {
      var init, a := acts[..|acts| - 1], acts[|acts| - 1];
      DeletionSimulatesDisabled(cfg, start, init);
      var p, q := Run(cfg, NewProvider(cfg, start), init, true), Run(cfg, NewProvider(cfg, start), init, false);
      if !a.Select? { SameOutcome(cfg, p, q, a); }
    }
  }

  predicate LegacyRedundant(b: BreakerConfig) {
    if b.enabled then b.timeout <= AuthFailureTimeout else b.timeout <= 0
  }

  /** `n` failures at time `t`. */
  function Failures(n: nat, t: int, auth: bool): (acts: seq<Act>)
    ensures |acts| == n && forall i :: 0 <= i < n ==> acts[i] == Failure(t, auth)
  {
    seq(n, _ => Failure(t, auth))
  }

  /** Like new, but for what selections may have taken from the limiter. */
  predicate Unused(p: Provider, start: int) {
    p.failure == NoFailures && p.circuit == NewCircuit(start) && p.healthy
  }

  lemma {:induction false} AfterFailures(cfg: ChainConfig, p: Provider, start: int, n: nat, auth: bool, legacy: bool)
    requires WellPosed(cfg.rate) && Unused(p, start)
    ensures var q := Run(cfg, p, Failures(n, start, auth), legacy);
            && q.failure.consecutiveFailures == n && q.failure.consecutiveAuthFailures == (if auth then n else 0)
            && (n > 0 ==> q.failure.lastFailureTime == start)
            && (n > 0 && n >= cfg.breaker.failureThreshold ==> q.failure.temporarilyDown)
            && q.circuit.lastStateChange == start && q.healthy && q.limiter == p.limiter
            && q.circuit.consecutiveSuccesses == 0 && q.circuit.halfOpenCalls == 0 && !q.circuit.state.HALF_OPEN?
            && (cfg.breaker.enabled ==> q.circuit.consecutiveFailures == n)
            && (cfg.breaker.enabled && n > 0 && n >= cfg.breaker.failureThreshold ==> q.circuit.state.OPEN?)
  {
    if n > 0 {
      AfterFailures(cfg, p, start, n - 1, auth, legacy);
      assert Failures(n, start, auth)[..n - 1] == Failures(n - 1, start, auth);
    }
  }

  /** The first selection of a new provider. */
  lemma FirstSelect(cfg: ChainConfig, start: int, now: int, legacy: bool)
    requires WellPosed(cfg.rate) && start <= now
    ensures var p := NewProvider(cfg, start);
            var r := Choose(cfg, p, now, legacy);
            && Unused(r.value, start) && r.ok == AdmitsOnce(cfg.rate)
            && (Admits(cfg.rate) ==> r.value == p)
  {
    var c := cfg.rate;
    if c.enabled && c.burstSize > 0 && c.maxRequests < 0 && RefillInterval(c) < 0 {
      QuotSign(now - start, RefillInterval(c));
    }
  }

  /** Otherwise one run tells the programs apart: a selection, enough credential failures at
      once, then a selection when the circuit's own wait is over but the flag's is not. */
  lemma LegacyMatters(cfg: ChainConfig, start: int) returns (acts: seq<Act>)
    requires WellPosed(cfg.rate) && AdmitsOnce(cfg.rate) && !LegacyRedundant(cfg.breaker)
    ensures Ordered(start, acts)
    ensures Admits(cfg.rate) ==> Causal(cfg, NewProvider(cfg, start), acts)
    ensures Answers(cfg, NewProvider(cfg, start), acts, true) != Answers(cfg, NewProvider(cfg, start), acts, false)
  {
    hide Answers, Run, Choose, Failures, Enough;
    var b, p := cfg.breaker, NewProvider(cfg, start);
    var n := Enough(b);
    var fails := Failures(n, start, true);
    var t := if b.enabled then start + AuthFailureTimeout else start;
    var before := if Admits(cfg.rate) then [Select(start)] else [];
    FirstSelect(cfg, start, start, true);
    acts := before + fails + [Select(t)];
    Parted(cfg, start, before, true);
    Parted(cfg, start, before, false);
    Separates(cfg, start, t);
    if Admits(cfg.rate) { CausalFromFirst(cfg, p, acts); }
    LastAnswer(cfg, p, before, fails, t, true);
    LastAnswer(cfg, p, before, fails, t, false);
    var k := Selections(before);
    assert !Answers(cfg, p, acts, true)[k] && Answers(cfg, p, acts, false)[k];
  }

  /** Failures enough for the flag and for the credential escalation. */
  function Enough(b: BreakerConfig): (n: nat)
    ensures n >= 3 && n >= b.failureThreshold
  {
    if b.failureThreshold > 3 then b.failureThreshold else 3
  }

  /** When the credential wait is over and the flag's cooldown is not, only the flag refuses. */
  lemma Separates(cfg: ChainConfig, start: int, t: int)
    requires WellPosed(cfg.rate) && AdmitsOnce(cfg.rate) && !LegacyRedundant(cfg.breaker)
    requires t == if cfg.breaker.enabled then start + AuthFailureTimeout else start
    ensures var p, fails := NewProvider(cfg, start), Failures(Enough(cfg.breaker), start, true);
            && !Choose(cfg, Run(cfg, p, fails, true), t, true).ok
            && Choose(cfg, Run(cfg, p, fails, false), t, false).ok
  {
    var p, n := NewProvider(cfg, start), Enough(cfg.breaker);
    AfterFailures(cfg, p, start, n, true, true);
    AfterFailures(cfg, p, start, n, true, false);
    hide Run;
    LimiterAdmits(cfg, Run(cfg, p, Failures(n, start, true), false), start, t, false);
    hide Check;
  }

  /** At most one selection by a full window leaves a new provider as it is. */
  lemma Parted(cfg: ChainConfig, start: int, before: seq<Act>, legacy: bool)
    requires WellPosed(cfg.rate) && before == if Admits(cfg.rate) then [Select(start)] else []
    ensures Run(cfg, NewProvider(cfg, start), before, legacy) == NewProvider(cfg, start)
  {
    FirstSelect(cfg, start, start, legacy);
    assert before != [] ==> before[..0] == [];
  }

  lemma LimiterAdmits(cfg: ChainConfig, p: Provider, start: int, t: int, legacy: bool)
    requires WellPosed(cfg.rate) && AdmitsOnce(cfg.rate) && p.limiter == NewLimiter(cfg.rate.burstSize, start) && start <= t
    ensures cfg.rate.enabled ==> Check(cfg.rate, p.limiter, t).ok
  {
    FirstSelect(cfg, start, t, legacy);
    assert cfg.rate.enabled ==> Choose(cfg, NewProvider(cfg, start), t, legacy).ok == Check(cfg.rate, p.limiter, t).ok;
  }

  /** The answers of a run that ends in failures and one selection. */
  lemma LastAnswer(cfg: ChainConfig, p: Provider, before: seq<Act>, fails: seq<Act>, t: int, legacy: bool)
    requires WellPosed(cfg.rate) && Run(cfg, p, before, legacy) == p && forall i :: 0 <= i < |fails| ==> !fails[i].Select?
    ensures Answers(cfg, p, before + fails + [Select(t)], legacy) ==
            Answers(cfg, p, before, legacy) + [Choose(cfg, Run(cfg, p, fails, legacy), t, legacy).ok]
    ensures |Answers(cfg, p, before, legacy)| == Selections(before)
  {
    var init := before + fails;
    assert (init + [Select(t)])[..|init|] == init;
    RunAppend(cfg, p, before, fails, legacy);
    NoAnswers(cfg, p, before, fails, legacy);
    AnswerCount(cfg, p, before, legacy);
  }

  function Selections(acts: seq<Act>): nat {
    if acts == [] then 0 else Selections(acts[..|acts| - 1]) + if acts[|acts| - 1].Select? then 1 else 0
  }

  lemma {:induction false} AnswerCount(cfg: ChainConfig, p: Provider, acts: seq<Act>, legacy: bool)
    requires WellPosed(cfg.rate)
    ensures |Answers(cfg, p, acts, legacy)| == Selections(acts)
  {
    if acts != [] { AnswerCount(cfg, p, acts[..|acts| - 1], legacy); }
  }

  lemma {:induction false} NoAnswers(cfg: ChainConfig, p: Provider, before: seq<Act>, acts: seq<Act>, legacy: bool)
    requires WellPosed(cfg.rate) && forall i :: 0 <= i < |acts| ==> !acts[i].Select?
    ensures Answers(cfg, p, before + acts, legacy) == Answers(cfg, p, before, legacy)
  {
    if acts == [] {
      assert before + acts == before;
    } else {
      NoAnswers(cfg, p, before, acts[..|acts| - 1], legacy);
      assert (before + acts)[..|before + acts| - 1] == before + acts[..|acts| - 1];
    }
  }

  ghost predicate LegacyNeverMatters(cfg: ChainConfig, start: int)
    requires WellPosed(cfg.rate)
  {
    forall acts :: Ordered(start, acts) ==>
      Answers(cfg, NewProvider(cfg, start), acts, true) == Answers(cfg, NewProvider(cfg, start), acts, false)
  }

  /** The same over the runs in which outcomes follow admitted selections. */
  ghost predicate LegacyNeverMattersCausally(cfg: ChainConfig, start: int)
    requires WellPosed(cfg.rate)
  {
    forall acts :: Ordered(start, acts) && Causal(cfg, NewProvider(cfg, start), acts) ==>
      Answers(cfg, NewProvider(cfg, start), acts, true) == Answers(cfg, NewProvider(cfg, start), acts, false)
  }

  /** A limiter that admits nothing refuses with or without the legacy check. */
  lemma {:induction false} AllRefused(cfg: ChainConfig, start: int, acts: seq<Act>)
    requires WellPosed(cfg.rate) && !AdmitsOnce(cfg.rate)
    ensures Answers(cfg, NewProvider(cfg, start), acts, true) == Answers(cfg, NewProvider(cfg, start), acts, false)
  {
    if acts != [] { AllRefused(cfg, start, acts[..|acts| - 1]); }
  }

  /** Deleting the legacy check changes no availability answer in any run exactly when the
      breaker is on with a timeout of at most ten minutes, or off with none, or the rate
      limiter refuses everything anyway. */
  lemma {:induction false} LegacyNeverMattersIff(cfg: ChainConfig, start: int)
    requires WellPosed(cfg.rate)
    ensures LegacyNeverMatters(cfg, start) <==> LegacyRedundant(cfg.breaker) || !AdmitsOnce(cfg.rate)
    ensures Admits(cfg.rate) ==> (LegacyNeverMattersCausally(cfg, start) <==> LegacyRedundant(cfg.breaker))
  {
    hide Answers, Causal;
    if LegacyRedundant(cfg.breaker) || !AdmitsOnce(cfg.rate) {
      forall acts | Ordered(start, acts)
        ensures Answers(cfg, NewProvider(cfg, start), acts, true) == Answers(cfg, NewProvider(cfg, start), acts, false)
      {
        if !AdmitsOnce(cfg.rate) { AllRefused(cfg, start, acts); }
        else if cfg.breaker.enabled { DeletionSimulates(cfg, start, acts); }
        else { DeletionSimulatesDisabled(cfg, start, acts); }
      }
    } else {
      var acts := LegacyMatters(cfg, start);
    }
  }

  // ---- permanently blocked providers ----

  predicate OnlySelects(acts: seq<Act>) { forall i :: 0 <= i < |acts| ==> acts[i].Select? }

  ghost predicate AllFalse(answers: seq<bool>) { forall i :: 0 <= i < |answers| ==> !answers[i] }

  /** However often the provider is asked for from time `t` on, it is always refused; with no
      call ever made, no outcome can change that. */
  ghost predicate Stuck(cfg: ChainConfig, p: Provider, t: int)
    requires WellPosed(cfg.rate)
  {
    forall acts :: OnlySelects(acts) && Ordered(t, acts) ==> AllFalse(Answers(cfg, p, acts, true))
  }

  ghost predicate AdmittedFrom(cfg: ChainConfig, p: Provider, t: int)
    requires WellPosed(cfg.rate)
  {
    forall now :: now >= t ==> Choose(cfg, p, now, true).ok
  }

  predicate Exhausted(b: BreakerConfig, c: CircuitState) {
    b.enabled && c.state.HALF_OPEN? && c.halfOpenCalls >= b.halfOpenMaxCalls
  }

  predicate Dead(cfg: ChainConfig, p: Provider) {
    Exhausted(cfg.breaker, p.circuit) || Starved(cfg.rate, p.limiter)
  }

  /** A refusal for either reason leaves the reason standing. */
  lemma DeadStep(cfg: ChainConfig, p: Provider, now: int)
    requires WellPosed(cfg.rate) && Dead(cfg, p) && p.limiter.lastRefill <= now
    ensures var r := Choose(cfg, p, now, true);
            !r.ok && Dead(cfg, r.value) && r.value.limiter.lastRefill <= now
  {
    if Starved(cfg.rate, p.limiter) { StarvedRefuses(cfg.rate, p.limiter, now); }
    hide Starved, Check;
  }

  lemma {:induction false} DeadForever(cfg: ChainConfig, p: Provider, t: int, acts: seq<Act>)
    requires WellPosed(cfg.rate) && Dead(cfg, p) && p.limiter.lastRefill <= t && OnlySelects(acts) && Ordered(t, acts)
    ensures AllFalse(Answers(cfg, p, acts, true)) && Dead(cfg, Run(cfg, p, acts, true))
    ensures Run(cfg, p, acts, true).limiter.lastRefill <= Now(t, acts)
  {
    hide Dead, Choose;
    if acts != [] {
      DeadForever(cfg, p, t, acts[..|acts| - 1]);
      DeadStep(cfg, Run(cfg, p, acts[..|acts| - 1], true), acts[|acts| - 1].now);
    }
  }

  lemma AdmitsEventually(cfg: ChainConfig, p: Provider) returns (t: int)
    requires WellPosed(cfg.rate) && !Dead(cfg, p) && p.healthy
    ensures AdmittedFrom(cfg, p, t)
  {
    var wait := if cfg.breaker.timeout > AuthFailureTimeout then cfg.breaker.timeout else AuthFailureTimeout;
    var a, c := p.failure.lastFailureTime, p.circuit.lastStateChange;
    var u, v := (if a > c then a else c) + wait, AdmittedAt(cfg.rate, p.limiter);
    t := if u > v then u else v;
    forall now | now >= t ensures Choose(cfg, p, now, true).ok {
      AdmitsLater(cfg.rate, p.limiter, now);
      hide Starved, Check, AdmittedAt;
    }
  }

  /** A healthy provider is blocked for good exactly when it is half-open with its probe calls
      used up, or its limiter has nothing left to give; otherwise some later time admits it, and
      so does every time after that. */
  lemma {:induction false} StuckIffDead(cfg: ChainConfig, p: Provider, t: int)
    requires WellPosed(cfg.rate) && p.healthy && p.limiter.lastRefill <= t
    ensures Stuck(cfg, p, t) <==> Dead(cfg, p)
    ensures !Stuck(cfg, p, t) ==> exists u :: AdmittedFrom(cfg, p, u)
  {
    hide Dead, Choose;
    if Dead(cfg, p) {
      forall acts | OnlySelects(acts) && Ordered(t, acts) ensures AllFalse(Answers(cfg, p, acts, true)) {
        DeadForever(cfg, p, t, acts);
      }
    } else {
      var u := AdmitsEventually(cfg, p);
      var now := if u > t then u else t;
      var one := [Select(now)];
      assert one[..0] == [];
      assert Answers(cfg, p, one, true) == [Choose(cfg, p, now, true).ok];
      assert OnlySelects(one) && Ordered(t, one);
      assert Answers(cfg, p, one, true)[0];
    }
  }

  lemma {:induction false} RefillIsPast(cfg: ChainConfig, start: int, acts: seq<Act>)
    requires WellPosed(cfg.rate) && Ordered(start, acts)
    ensures Run(cfg, NewProvider(cfg, start), acts, true).limiter.lastRefill <= Now(start, acts)
  {
    if acts != [] { RefillIsPast(cfg, start, acts[..|acts| - 1]); }
  }

  lemma {:induction false} StaysHealthy(cfg: ChainConfig, start: int, acts: seq<Act>)
    requires WellPosed(cfg.rate)
    ensures Run(cfg, NewProvider(cfg, start), acts, true).healthy
  {
    if acts != [] { StaysHealthy(cfg, start, acts[..|acts| - 1]); }
  }

  /** The thresholds under which half-open probing can always go on. */
  predicate NeverExhausts(b: BreakerConfig) {
    !b.enabled || (b.halfOpenMaxCalls >= 1
                   && (b.failureThreshold <= 1
                       || (b.successThreshold <= 1 && b.failureThreshold <= b.halfOpenMaxCalls)))
  }

  predicate ProbeInv(b: BreakerConfig, c: CircuitState) {
    && c.consecutiveFailures >= 0 && c.consecutiveSuccesses >= 0
    && (c.state.HALF_OPEN? ==>
          c.halfOpenCalls == 0 || (0 <= c.halfOpenCalls <= c.consecutiveFailures < b.failureThreshold))
  }

  lemma {:induction false} ProbesRemain(cfg: ChainConfig, start: int, acts: seq<Act>)
    requires WellPosed(cfg.rate) && cfg.breaker.enabled && NeverExhausts(cfg.breaker)
    ensures ProbeInv(cfg.breaker, Run(cfg, NewProvider(cfg, start), acts, true).circuit)
  {
    if acts != [] { ProbesRemain(cfg, start, acts[..|acts| - 1]); }
  }

  lemma {:induction false} DisabledStaysClosed(cfg: ChainConfig, start: int, acts: seq<Act>)
    requires WellPosed(cfg.rate) && !cfg.breaker.enabled
    ensures Run(cfg, NewProvider(cfg, start), acts, true).circuit.state == CLOSED
  {
    if acts != [] { DisabledStaysClosed(cfg, start, acts[..|acts| - 1]); }
  }

  /** Enough failures to open the circuit. */
  function Opening(b: BreakerConfig): nat { if b.failureThreshold > 1 then b.failureThreshold else 1 }

  function WaitOver(b: BreakerConfig, start: int): int { if b.timeout > 0 then start + b.timeout else start }

  /** One more act, not before the last. */
  lemma RunSnoc(cfg: ChainConfig, start: int, acts: seq<Act>, a: Act)
    requires WellPosed(cfg.rate)
    ensures Run(cfg, NewProvider(cfg, start), acts + [a], true) ==
            Step(cfg, Run(cfg, NewProvider(cfg, start), acts, true), a, true)
    ensures Ordered(start, acts) && Now(start, acts) <= a.now ==> Ordered(start, acts + [a])
    ensures Now(start, acts + [a]) == a.now
  {
    assert (acts + [a])[..|acts|] == acts;
  }

  /** A run that starts with an admitted selection and ends half-open and unprobed. */
  lemma ReachHalfOpen(cfg: ChainConfig, start: int, late: bool) returns (acts: seq<Act>)
    requires WellPosed(cfg.rate) && cfg.breaker.enabled
    ensures Ordered(start, acts) && Now(start, acts) == WaitOver(cfg.breaker, start)
    ensures acts != [] && acts[0] == Select(start)
    ensures var p := Run(cfg, NewProvider(cfg, start), acts, true);
            && p.circuit.state.HALF_OPEN? && p.circuit.halfOpenCalls == 0
            && p.failure.consecutiveAuthFailures == 0
            && p.circuit.consecutiveFailures == (if late then 0 else Opening(cfg.breaker))
            && p.circuit.consecutiveSuccesses == (if late then 1 else 0)
  {
    hide Run, Choose, Ordered, OpeningActs;
    var b, p := cfg.breaker, NewProvider(cfg, start);
    OpeningInOrder(b, start);
    OpeningOpens(cfg, start);
    acts := OpeningActs(b, start);
    if late {
      RunSnoc(cfg, start, acts, Success(start));
      acts := acts + [Success(start)];
    }
    var t := WaitOver(b, start);
    HalfOpens(cfg, Run(cfg, p, acts, true), start, t);
    RunSnoc(cfg, start, acts, Select(t));
    acts := acts + [Select(t)];
  }

  /** A selection, and failures enough to open the circuit. */
  function OpeningActs(b: BreakerConfig, start: int): seq<Act> {
    [Select(start)] + Failures(Opening(b), start, false)
  }

  lemma OpeningInOrder(b: BreakerConfig, start: int)
    ensures var acts := OpeningActs(b, start);
            Ordered(start, acts) && Now(start, acts) == start && acts != [] && acts[0] == Select(start)
  {
  }

  lemma OpeningOpens(cfg: ChainConfig, start: int)
    requires WellPosed(cfg.rate) && cfg.breaker.enabled
    ensures var p := Run(cfg, NewProvider(cfg, start), OpeningActs(cfg.breaker, start), true);
            && p.circuit.state.OPEN? && p.circuit.lastStateChange == start && p.circuit.consecutiveSuccesses == 0
            && p.circuit.consecutiveFailures == Opening(cfg.breaker) && p.failure.consecutiveAuthFailures == 0
            && p.failure.lastFailureTime == start
  {
    hide Run, Choose, Failures;
    var b, p := cfg.breaker, NewProvider(cfg, start);
    var first, fails := [Select(start)], Failures(Opening(b), start, false);
    FirstSelect(cfg, start, start, true);
    RunSnoc(cfg, start, [], Select(start));
    assert [] + first == first;
    NoActs(cfg, start);
    AfterFailures(cfg, Run(cfg, p, first, true), start, Opening(b), false, true);
    RunAppend(cfg, p, first, fails, true);
  }

  lemma NoActs(cfg: ChainConfig, start: int)
    requires WellPosed(cfg.rate)
    ensures Run(cfg, NewProvider(cfg, start), [], true) == NewProvider(cfg, start)
  {
  }

  /** A selection after the wait half-opens the circuit, whatever the limiter answers. */
  lemma HalfOpens(cfg: ChainConfig, p: Provider, since: int, t: int)
    requires WellPosed(cfg.rate) && cfg.breaker.enabled && p.circuit.state.OPEN? && p.circuit.lastStateChange == since
    requires p.failure.consecutiveAuthFailures == 0 && t - since >= cfg.breaker.timeout
    requires p.failure.temporarilyDown ==> p.failure.lastFailureTime == since
    ensures var q := Choose(cfg, p, t, true).value;
            && q.circuit == p.circuit.(state := HALF_OPEN, lastStateChange := t, halfOpenCalls := 0)
            && q.failure.consecutiveAuthFailures == 0
  {
    hide Check;
  }

  /** `n` failed probes, each followed by a success when `mixed`, all at the time reached. */
  lemma {:induction false} Probe(cfg: ChainConfig, start: int, acts: seq<Act>, n: nat, mixed: bool) returns (more: seq<Act>)
    requires WellPosed(cfg.rate) && cfg.breaker.enabled && Ordered(start, acts)
    requires var c := Run(cfg, NewProvider(cfg, start), acts, true).circuit;
             && c.state.HALF_OPEN? && c.halfOpenCalls == 0 && c.consecutiveFailures == 0
    requires if mixed then cfg.breaker.failureThreshold >= 2 && cfg.breaker.successThreshold >= 2
             else n < cfg.breaker.failureThreshold
    ensures Ordered(start, more) && Now(start, more) == Now(start, acts) && acts <= more
    ensures var c := Run(cfg, NewProvider(cfg, start), more, true).circuit;
            && c.state.HALF_OPEN? && c.halfOpenCalls == n
            && c.consecutiveFailures == (if mixed then 0 else n)
  {
    hide Run, Ordered;
    if n == 0 {
      more := acts;
    } else {
      var t := Now(start, acts);
      more := Probe(cfg, start, acts, n - 1, mixed);
      RunSnoc(cfg, start, more, Failure(t, false));
      more := more + [Failure(t, false)];
      if mixed {
        RunSnoc(cfg, start, more, Success(t));
        more := more + [Success(t)];
      }
    }
  }

  /** Outside those thresholds some run of a clock that never goes back leaves a provider
      nobody will ever select again. */
  lemma CanGetStuck(cfg: ChainConfig, start: int) returns (acts: seq<Act>)
    requires WellPosed(cfg.rate) && !NeverExhausts(cfg.breaker)
    ensures Ordered(start, acts) && Stuck(cfg, Run(cfg, NewProvider(cfg, start), acts, true), Now(start, acts))
    ensures AdmitsOnce(cfg.rate) ==> Causal(cfg, NewProvider(cfg, start), acts)
  {
    var b := cfg.breaker;
    var t := WaitOver(b, start);
    FirstSelect(cfg, start, start, true);
    if b.halfOpenMaxCalls <= 0 {
      acts := ReachHalfOpen(cfg, start, false);
    } else if b.successThreshold >= 2 {
      acts := ReachHalfOpen(cfg, start, false);
      RunSnoc(cfg, start, acts, Success(t));
      acts := Probe(cfg, start, acts + [Success(t)], b.halfOpenMaxCalls, true);
    } else {
      acts := ReachHalfOpen(cfg, start, true);
      acts := Probe(cfg, start, acts, b.halfOpenMaxCalls, false);
    }
    hide Run, Choose, Stuck;
    if AdmitsOnce(cfg.rate) { CausalFromFirst(cfg, NewProvider(cfg, start), acts); }
    StaysHealthy(cfg, start, acts);
    RefillIsPast(cfg, start, acts);
    StuckIffDead(cfg, Run(cfg, NewProvider(cfg, start), acts, true), Now(start, acts));
  }

  /** `n` selections at once. */
  function Asking(n: nat, t: int): (acts: seq<Act>)
    ensures |acts| == n && forall i :: 0 <= i < n ==> acts[i] == Select(t)
  {
    seq(n, _ => Select(t))
  }

  /** With tokens that never come back, selections use them up. */
  lemma {:induction false} TokensRunOut(cfg: ChainConfig, start: int, n: nat)
    requires WellPosed(cfg.rate) && cfg.rate.enabled && cfg.rate.maxRequests < 0 && RefillInterval(cfg.rate) < 0
    requires n <= cfg.rate.burstSize
    ensures var p := Run(cfg, NewProvider(cfg, start), Asking(n, start), true);
            && Unused(p, start) && p.limiter.burstTokens == cfg.rate.burstSize - n && p.limiter.lastRefill == start
  {
    if n > 0 {
      TokensRunOut(cfg, start, n - 1);
      assert Asking(n, start)[..n - 1] == Asking(n - 1, start);
      assert Quot(0, RefillInterval(cfg.rate)) == 0;
    }
  }

  /** A limiter that does not sustain requests ends up blocking the provider on its own. */
  lemma CanStarve(cfg: ChainConfig, start: int) returns (acts: seq<Act>)
    requires WellPosed(cfg.rate) && !Sustains(cfg.rate)
    ensures Ordered(start, acts) && OnlySelects(acts)
    ensures Stuck(cfg, Run(cfg, NewProvider(cfg, start), acts, true), Now(start, acts))
  {
    var n: nat := if cfg.rate.burstSize > 0 then cfg.rate.burstSize else 0;
    acts := Asking(n, start);
    if n > 0 { TokensRunOut(cfg, start, n); }
    var p := Run(cfg, NewProvider(cfg, start), acts, true);
    assert Starved(cfg.rate, p.limiter);
    StaysHealthy(cfg, start, acts);
    RefillIsPast(cfg, start, acts);
    hide Run, Choose, Stuck;
    StuckIffDead(cfg, p, Now(start, acts));
  }

  ghost predicate NeverStuck(cfg: ChainConfig, start: int)
    requires WellPosed(cfg.rate)
  {
    forall acts :: Ordered(start, acts) && Causal(cfg, NewProvider(cfg, start), acts) ==>
      !Stuck(cfg, Run(cfg, NewProvider(cfg, start), acts, true), Now(start, acts))
  }

  /** Over every run of a clock that never goes back, with outcomes only after admitted
      selections: no reachable state is permanently blocked exactly under those thresholds,
      given a limiter that sustains requests. */
  lemma {:induction false} NeverStuckIff(cfg: ChainConfig, start: int)
    requires WellPosed(cfg.rate)
    ensures NeverStuck(cfg, start) <==> NeverExhausts(cfg.breaker) && Sustains(cfg.rate)
  {
    hide Run, Choose, Stuck;
    if !Sustains(cfg.rate) {
      var acts := CanStarve(cfg, start);
      hide Sustains;
      assert Causal(cfg, NewProvider(cfg, start), acts);
    } else if !NeverExhausts(cfg.breaker) {
      var acts := CanGetStuck(cfg, start);
    } else {
      forall acts | Ordered(start, acts) ensures !Stuck(cfg, Run(cfg, NewProvider(cfg, start), acts, true), Now(start, acts)) {
        if cfg.breaker.enabled { ProbesRemain(cfg, start, acts); } else { DisabledStaysClosed(cfg, start, acts); }
        StaysHealthy(cfg, start, acts);
        RefillIsPast(cfg, start, acts);
        StuckIffDead(cfg, Run(cfg, NewProvider(cfg, start), acts, true), Now(start, acts));
      }
    }
  }

  /** The shipped defaults are outside them. */
  const DefaultBreaker := BreakerConfig(true, 5, 3, 30_000_000_000, 3)

  lemma DefaultsCanGetStuck(health: bool, rate: RateLimitConfig, start: int)
    requires WellPosed(rate)
    ensures !NeverStuck(ChainConfig(DefaultBreaker, health, rate), start)
    ensures LegacyNeverMatters(ChainConfig(DefaultBreaker, health, rate), start)
  {
    NeverStuckIff(ChainConfig(DefaultBreaker, health, rate), start);
    LegacyNeverMattersIff(ChainConfig(DefaultBreaker, health, rate), start);
  }
}
