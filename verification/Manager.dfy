/** The provider manager: per-name tracking maps, selection of available providers, and
    running an operation down the chain with retry and fallback. The operation, the clock
    and cancellation are the environment; calls to the operation are numbered. */
module Manager {
  import opened Common
  import opened RateLimiter
  import opened Breaker

  datatype ProviderConfig = ProviderConfig(name: string, priority: int)
  datatype RetryPolicy = RetryPolicy(enabled: bool, maxAttempts: int)

  // ---- the tracking maps ----

  datatype Book = Book(failures: map<string, FailureInfo>, circuits: map<string, CircuitState>,
                       health: map<string, bool>, limiters: map<string, Limiter>)

  predicate Tracks(bk: Book, name: string) {
    name in bk.failures && name in bk.circuits && name in bk.health && name in bk.limiters
  }

  function At(bk: Book, name: string): Provider
    requires Tracks(bk, name)
  {
    Provider(bk.failures[name], bk.circuits[name], bk.health[name], bk.limiters[name])
  }

  /** The availability check on the maps, stage by stage; a missing entry never blocks. */
  function LegacyStage(cfg: ChainConfig, bk: Book, name: string, now: int): Verdict<Book> {
    if name !in bk.failures then Verdict(bk, true)
    else
      var f := LegacyCheck(cfg.breaker, bk.failures[name], now);
      Verdict(bk.(failures := bk.failures[name := f.value]), f.ok)
  }

  function CircuitStage(cfg: ChainConfig, bk: Book, name: string, now: int): Verdict<Book> {
    if name !in bk.circuits then Verdict(bk, true)
    else
      var timeout := if name in bk.failures then OpenTimeout(cfg.breaker, bk.failures[name]) else cfg.breaker.timeout;
      var c := CircuitCheck(cfg.breaker, bk.circuits[name], timeout, now);
      Verdict(bk.(circuits := bk.circuits[name := c.value]), c.ok)
  }

  function RateStage(cfg: ChainConfig, bk: Book, name: string, now: int): Verdict<Book>
    requires WellPosed(cfg.rate)
  {
    if !cfg.rate.enabled || name !in bk.limiters then Verdict(bk, true)
    else
      var r := Check(cfg.rate, bk.limiters[name], now);
      Verdict(bk.(limiters := bk.limiters[name := r.limiter]), r.ok)
  }

  function Available(cfg: ChainConfig, bk: Book, name: string, now: int): Verdict<Book>
    requires WellPosed(cfg.rate)
  {
    var l := LegacyStage(cfg, bk, name, now);
    if !l.ok then l
    else
      var c := CircuitStage(cfg, l.value, name, now);
      if !c.ok || (cfg.healthEnabled && name in bk.health && !bk.health[name]) then Verdict(c.value, false)
      else RateStage(cfg, c.value, name, now)
  }

  function Succeeded(cfg: ChainConfig, bk: Book, name: string, now: int): Book {
    Book(if name in bk.failures then bk.failures[name := FailureAfterSuccess(bk.failures[name])] else bk.failures,
         if name in bk.circuits then bk.circuits[name := CircuitAfterSuccess(cfg.breaker, bk.circuits[name], now)]
         else bk.circuits,
         bk.health,
         if name in bk.limiters then bk.limiters[name := Record(cfg.rate, bk.limiters[name], now)] else bk.limiters)
  }

  function FailedOnce(cfg: ChainConfig, bk: Book, name: string, now: int): Book {
    bk.(failures := bk.failures[name := if name in bk.failures
                                         then FailureAfterFailure(cfg.breaker, bk.failures[name], now)
                                         else FailureInfo(1, now, false, 1, 0, 0)],
        circuits := if name in bk.circuits
                    then bk.circuits[name := CircuitAfterFailure(cfg.breaker, bk.circuits[name], now)]
                    else bk.circuits)
  }

  function AuthEscalated(cfg: ChainConfig, bk: Book, name: string, now: int): Book {
    if name !in bk.failures then bk
    else
      var f := bk.failures[name];
      var n := f.consecutiveAuthFailures + 1;
      bk.(failures := bk.failures[name := f.(consecutiveAuthFailures := n)],
          circuits := if name in bk.circuits
                      then bk.circuits[name := CircuitAfterAuthFailure(cfg.breaker, bk.circuits[name], n, now)]
                      else bk.circuits)
  }

  function Failed(cfg: ChainConfig, bk: Book, name: string, now: int, auth: bool): Book {
    if auth then AuthEscalated(cfg, FailedOnce(cfg, bk, name, now), name, now) else FailedOnce(cfg, bk, name, now)
  }

  /** A failure of a name nobody registered starts a record with that one failure. */
  lemma UnknownFailure(cfg: ChainConfig, bk: Book, name: string, now: int, auth: bool)
    requires name !in bk.failures
    ensures var f := Failed(cfg, bk, name, now, auth).failures;
            && name in f && f.Keys == bk.failures.Keys + {name} && f[name].lastFailureTime == now
            && f[name].totalFailures == 1 && f[name].totalSuccesses == 0 && !f[name].temporarilyDown
  {
  }

  lemma AvailableAt(cfg: ChainConfig, bk: Book, name: string, now: int, n: string)
    requires WellPosed(cfg.rate) && Tracks(bk, n)
    ensures var v := Available(cfg, bk, name, now);
            && Tracks(v.value, n)
            && (name == n ==> Verdict(At(v.value, n), v.ok) == Choose(cfg, At(bk, n), now, true))
            && (name != n ==> At(v.value, n) == At(bk, n))
  {
    hide Check;
  }

  lemma FailedAt(cfg: ChainConfig, bk: Book, name: string, now: int, auth: bool, n: string)
    requires Tracks(bk, n)
    ensures var f := Failed(cfg, bk, name, now, auth);
            Tracks(f, n) && At(f, n) == if name == n then Fail(cfg, At(bk, n), now, auth) else At(bk, n)
  {
    hide FailureAfterFailure, CircuitAfterFailure, CircuitAfterAuthFailure;
  }

  /** On the maps, each operation is the single-provider step for the provider it names, and
      leaves every other provider alone. */
  lemma {:induction false} BookIsPerProvider(cfg: ChainConfig, bk: Book, name: string, now: int, auth: bool, n: string)
    requires WellPosed(cfg.rate) && Tracks(bk, n)
    ensures var v := Available(cfg, bk, name, now);
            && Tracks(v.value, n)
            && (name == n ==> Verdict(At(v.value, n), v.ok) == Choose(cfg, At(bk, n), now, true))
            && (name != n ==> At(v.value, n) == At(bk, n))
    ensures var s := Succeeded(cfg, bk, name, now);
            Tracks(s, n) && At(s, n) == if name == n then Succeed(cfg, At(bk, n), now) else At(bk, n)
    ensures var f := Failed(cfg, bk, name, now, auth);
            Tracks(f, n) && At(f, n) == if name == n then Fail(cfg, At(bk, n), now, auth) else At(bk, n)
  {
    AvailableAt(cfg, bk, name, now, n);
    FailedAt(cfg, bk, name, now, auth, n);
    hide Available, Choose, Failed, Fail, Record, FailureAfterSuccess, CircuitAfterSuccess;
  }

  /** The providers that pass, in order, with the checks' effects threaded through. */
  function Passing(cfg: ChainConfig, bk: Book, ps: seq<ProviderConfig>, now: int): (Book, seq<ProviderConfig>)
    requires WellPosed(cfg.rate)
  {
    if ps == [] then (bk, [])
    else
      var (bk1, kept) := Passing(cfg, bk, ps[..|ps| - 1], now);
      var p := ps[|ps| - 1];
      var v := Available(cfg, bk1, p.name, now);
      (v.value, if v.ok then kept + [p] else kept)
  }

  // ---- the environment of an operation ----

  datatype OpResult = Ok(data: int) | Err(auth: bool)

  /** What call number k returns, when it is recorded, and whether the context was found
      cancelled during the backoff before it. */
  datatype Env = Env(result: nat -> OpResult, clock: nat -> int, cancelled: nat -> bool)

  datatype Call = Call(name: string, ok: bool)

  function Recorded(cfg: ChainConfig, bk: Book, name: string, env: Env, k: nat): Book {
    match env.result(k)
    case Ok(_) => Succeeded(cfg, bk, name, env.clock(k))
    case Err(auth) => Failed(cfg, bk, name, env.clock(k), auth)
  }

  /** Outcomes of calls `first` up to `first + n` recorded for one provider. */
  function RecordedAll(cfg: ChainConfig, bk: Book, name: string, env: Env, first: nat, n: nat): Book {
    if n == 0 then bk
    else Recorded(cfg, RecordedAll(cfg, bk, name, env, first, n - 1), name, env, first + n - 1)
  }

  function Budget(r: RetryPolicy): (n: nat)
    ensures n >= 1 && (n > 1 ==> r.enabled)
    ensures r.enabled && r.maxAttempts >= 1 ==> n == r.maxAttempts
  {
    if r.enabled && r.maxAttempts > 1 then r.maxAttempts else 1
  }

  /** `n` calls from `first` were all the failed attempts one provider gets: none found a
      cancelled backoff before it, and they end at the budget or at a cancelled backoff. */
  ghost predicate GaveUp(env: Env, budget: nat, first: nat, n: nat) {
    && 1 <= n <= budget
    && (forall k :: first <= k < first + n ==> env.result(k).Err?)
    && (forall k :: first < k < first + n ==> !env.cancelled(k))
    && (n == budget || env.cancelled(first + n))
  }

  /** What a provider that gave up reports: its last call's error, unless a backoff was cancelled. */
  function ReportedBy(budget: nat, first: nat, n: nat): LastError {
    if n >= 1 && n == budget then CallError(first + n - 1) else ContextDone
  }

  /** `n` calls from `first`, of which only the last succeeded. */
  ghost predicate WonAt(env: Env, budget: nat, first: nat, n: nat) {
    && 1 <= n <= budget
    && (forall k :: first <= k < first + n - 1 ==> env.result(k).Err?)
    && env.result(first + n - 1).Ok?
    && (forall k :: first < k < first + n ==> !env.cancelled(k))
  }

  function Sum(ns: seq<nat>): nat {
    if ns == [] then 0 else Sum(ns[..|ns| - 1]) + ns[|ns| - 1]
  }

  function Names(ps: seq<ProviderConfig>): (ns: seq<string>)
    ensures |ns| == |ps| && forall i :: 0 <= i < |ps| ==> ns[i] == ps[i].name
  {
    seq(|ps|, i requires 0 <= i < |ps| => ps[i].name)
  }

  /** Calls with a given outcome made to one provider. */
  function Tally(log: seq<Call>, name: string, ok: bool): nat {
    if log == [] then 0
    else Tally(log[..|log| - 1], name, ok) + (if log[|log| - 1] == Call(name, ok) then 1 else 0)
  }

  lemma TallySnoc(log: seq<Call>, c: Call, name: string, ok: bool)
    ensures Tally(log + [c], name, ok) == Tally(log, name, ok) + if c == Call(name, ok) then 1 else 0
  {
    assert (log + [c])[..|log|] == log;
  }

  /** One provider's counters in `bk` are those of `start` plus its calls in `log`. */
  predicate CountsCalls(start: Book, bk: Book, log: seq<Call>, name: string) {
    && name in start.failures && name in bk.failures
    && bk.failures[name].totalSuccesses == start.failures[name].totalSuccesses + Tally(log, name, true)
    && bk.failures[name].totalFailures == start.failures[name].totalFailures + Tally(log, name, false)
  }

  lemma CountsStep(cfg: ChainConfig, start: Book, bk: Book, log: seq<Call>, name: string, env: Env, k: nat, n: string)
    requires CountsCalls(start, bk, log, n) && name in bk.failures
    ensures CountsCalls(start, Recorded(cfg, bk, name, env, k), log + [Call(name, env.result(k).Ok?)], n)
    ensures name in Recorded(cfg, bk, name, env, k).failures
  {
    TallySnoc(log, Call(name, env.result(k).Ok?), n, true);
    TallySnoc(log, Call(name, env.result(k).Ok?), n, false);
  }

  /** The calls `first` up to `first + n`, all made to one provider. */
  function LogOf(name: string, env: Env, first: nat, n: nat): (log: seq<Call>)
    ensures |log| == n
  {
    if n == 0 then [] else LogOf(name, env, first, n - 1) + [Call(name, env.result(first + n - 1).Ok?)]
  }

  lemma {:induction false} CountsAttempts(cfg: ChainConfig, start: Book, bk: Book, log: seq<Call>, name: string, env: Env,
                                          first: nat, m: nat, n: string)
    requires CountsCalls(start, bk, log, n) && name in bk.failures
    ensures CountsCalls(start, RecordedAll(cfg, bk, name, env, first, m), log + LogOf(name, env, first, m), n)
    ensures name in RecordedAll(cfg, bk, name, env, first, m).failures
  {
    hide Recorded, CountsCalls;
    if m == 0 {
      assert log + [] == log;
    } else {
      CountsAttempts(cfg, start, bk, log, name, env, first, m - 1, n);
      var before := RecordedAll(cfg, bk, name, env, first, m - 1);
      var sofar := log + LogOf(name, env, first, m - 1);
      CountsStep(cfg, start, before, sofar, name, env, first + m - 1, n);
      assert sofar + [Call(name, env.result(first + m - 1).Ok?)] == log + LogOf(name, env, first, m);
    }
  }

  lemma {:induction false} RecordedAllKeeps(cfg: ChainConfig, bk: Book, name: string, env: Env, first: nat, m: nat, n: string)
    requires n in bk.failures
    ensures n in RecordedAll(cfg, bk, name, env, first, m).failures
  {
    if m > 0 { RecordedAllKeeps(cfg, bk, name, env, first, m - 1, n); }
  }

  /** The whole run's calls and effects, when provider k of the chain made `used[k]` calls. */
  function RunLog(chain: seq<ProviderConfig>, env: Env, used: seq<nat>): (log: seq<Call>)
    requires |used| <= |chain|
    ensures |log| == Sum(used)
  {
    if used == [] then []
    else
      var k := |used| - 1;
      RunLog(chain, env, used[..k]) + LogOf(chain[k].name, env, Sum(used[..k]), used[k])
  }

  function RunBook(cfg: ChainConfig, bk: Book, chain: seq<ProviderConfig>, env: Env, used: seq<nat>): Book
    requires |used| <= |chain|
  {
    if used == [] then bk
    else
      var k := |used| - 1;
      RecordedAll(cfg, RunBook(cfg, bk, chain, env, used[..k]), chain[k].name, env, Sum(used[..k]), used[k])
  }

  lemma {:induction false} RunBookKeeps(cfg: ChainConfig, bk: Book, chain: seq<ProviderConfig>, env: Env, used: seq<nat>, n: string)
    requires |used| <= |chain| && n in bk.failures
    ensures n in RunBook(cfg, bk, chain, env, used).failures
  {
    if used != [] {
      var k := |used| - 1;
      RunBookKeeps(cfg, bk, chain, env, used[..k], n);
      RecordedAllKeeps(cfg, RunBook(cfg, bk, chain, env, used[..k]), chain[k].name, env, Sum(used[..k]), used[k], n);
    }
  }

  /** Over a whole run each provider's counters rise by exactly its own calls. */
  lemma {:induction false} CountsRun(cfg: ChainConfig, start: Book, bk: Book, chain: seq<ProviderConfig>, env: Env,
                                     used: seq<nat>, n: string)
    requires |used| <= |chain| && CountsCalls(start, bk, [], n)
    requires forall k :: 0 <= k < |used| ==> chain[k].name in bk.failures
    ensures CountsCalls(start, RunBook(cfg, bk, chain, env, used), RunLog(chain, env, used), n)
  {
    hide RecordedAll, CountsCalls, LogOf;
    if used != [] {
      var k := |used| - 1;
      CountsRun(cfg, start, bk, chain, env, used[..k], n);
      RunBookKeeps(cfg, bk, chain, env, used[..k], chain[k].name);
      CountsAttempts(cfg, start, RunBook(cfg, bk, chain, env, used[..k]), RunLog(chain, env, used[..k]),
                     chain[k].name, env, Sum(used[..k]), used[k], n);
    }
  }

  /** Providers before number `n` all gave up. */
  ghost predicate AllGaveUp(env: Env, budget: nat, used: seq<nat>, n: nat)
    requires n <= |used|
  {
    forall k :: 0 <= k < n ==> GaveUp(env, budget, Sum(used[..k]), used[k])
  }

  lemma ChainEmpty(cfg: ChainConfig, bk: Book, chain: seq<ProviderConfig>, env: Env, budget: nat)
    ensures RunLog(chain, env, []) == [] && RunBook(cfg, bk, chain, env, []) == bk && AllGaveUp(env, budget, [], 0)
    ensures Sum([]) == 0 && LastReported(budget, []) == ContextDone
  {
  }

  lemma ChainSnoc(cfg: ChainConfig, bk: Book, chain: seq<ProviderConfig>, env: Env, used: seq<nat>, n: nat)
    requires |used| < |chain|
    ensures var k, more := |used|, used + [n];
            && RunLog(chain, env, more) == RunLog(chain, env, used) + LogOf(chain[k].name, env, Sum(used), n)
            && RunBook(cfg, bk, chain, env, more) ==
               RecordedAll(cfg, RunBook(cfg, bk, chain, env, used), chain[k].name, env, Sum(used), n)
  {
    hide RecordedAll, LogOf;
    assert (used + [n])[..|used|] == used;
  }

  lemma GaveUpPrefix(env: Env, budget: nat, used: seq<nat>, n: nat)
    requires AllGaveUp(env, budget, used, |used|)
    ensures AllGaveUp(env, budget, used + [n], |used|)
    ensures GaveUp(env, budget, Sum(used), n) ==> AllGaveUp(env, budget, used + [n], |used| + 1)
  {
    var more := used + [n];
    forall k | 0 <= k < |used| ensures GaveUp(env, budget, Sum(more[..k]), more[k]) {
      assert more[..k] == used[..k];
      assert GaveUp(env, budget, Sum(used[..k]), used[k]);
    }
    assert more[..|used|] == used;
  }

  /** The error reported last: that of a numbered call, or the context's own. */
  datatype LastError = CallError(call: nat) | ContextDone
  datatype OpError = NoProviders | NotAvailable(name: string) | AllFailed(last: LastError)
  datatype RunResult = Won(data: int, provider: string) | Lost(err: OpError)

  /** What the last provider tried reports. */
  function LastReported(budget: nat, used: seq<nat>): LastError {
    if used == [] then ContextDone
    else ReportedBy(budget, Sum(used[..|used| - 1]), used[|used| - 1])
  }

  lemma ReportedSnoc(budget: nat, used: seq<nat>, n: nat)
    ensures LastReported(budget, used + [n]) == ReportedBy(budget, Sum(used), n) && Sum(used + [n]) == Sum(used) + n
  {
    assert (used + [n])[..|used|] == used;
  }

  /** How a run down the chain ends. The winner is the first provider with a success and those
      before it, named by the trail, gave up; a lost run tried everyone and reports the last error. */
  ghost predicate ChainOutcome(env: Env, budget: nat, chain: seq<ProviderConfig>, used: seq<nat>, r: RunResult,
                               trail: seq<string>) {
    && |used| <= |chain|
    && match r
       case Won(data, provider) =>
         && used != [] && AllGaveUp(env, budget, used, |used| - 1)
         && WonAt(env, budget, Sum(used[..|used| - 1]), used[|used| - 1])
         && provider == chain[|used| - 1].name && Sum(used) >= 1 && env.result(Sum(used) - 1) == Ok(data)
         && trail == Names(chain[..|used| - 1])
       case Lost(err) =>
         && |used| == |chain| && AllGaveUp(env, budget, used, |used|) && trail == Names(chain)
         && (chain != [] ==> err == AllFailed(LastReported(budget, used)))
  }

  /** The provider a won run reports to the strategy. */
  function Winner(chain: seq<ProviderConfig>, used: seq<nat>, r: RunResult): seq<ProviderConfig>
    requires |used| <= |chain|
  {
    if r.Won? && used != [] then [chain[|used| - 1]] else []
  }

  /** What the end of a run says: the winner's call was the last one made and succeeded, and the
      strategy hears of that provider; a lost run reports the very last call's error, unless the
      context ended the last provider's turn early. */
  lemma OutcomeMeaning(env: Env, budget: nat, chain: seq<ProviderConfig>, used: seq<nat>, r: RunResult, trail: seq<string>)
    requires ChainOutcome(env, budget, chain, used, r, trail) && chain != []
    ensures r.Won? ==> |Winner(chain, used, r)| == 1 && Winner(chain, used, r)[0].name == r.provider
    ensures r.Won? ==> Sum(used) >= 1 && env.result(Sum(used) - 1) == Ok(r.data)
    ensures r.Lost? ==> Winner(chain, used, r) == [] && r.err.AllFailed?
    ensures r.Lost? && r.err.last.CallError? ==> Sum(used) >= 1 && r.err.last.call == Sum(used) - 1 && env.result(Sum(used) - 1).Err?
    ensures r.Lost? && r.err.last.ContextDone? ==> env.cancelled(Sum(used))
  {
    if r.Lost? {
      var k := |used| - 1;
      assert GaveUp(env, budget, Sum(used[..k]), used[k]);
      assert Sum(used) == Sum(used[..k]) + used[k];
    }
  }

  lemma WonOutcome(env: Env, budget: nat, chain: seq<ProviderConfig>, used: seq<nat>, n: nat, data: int)
    requires |used| < |chain| && AllGaveUp(env, budget, used, |used|)
    requires WonAt(env, budget, Sum(used), n) && env.result(Sum(used) + n - 1) == Ok(data)
    ensures ChainOutcome(env, budget, chain, used + [n], Won(data, chain[|used|].name), Names(chain[..|used|]))
  {
    hide AllGaveUp, Sum, WonAt, GaveUp, LastReported;
    WonPositive(env, budget, Sum(used), n);
    GaveUpPrefix(env, budget, used, n);
    ReportedSnoc(budget, used, n);
    assert (used + [n])[..|used|] == used;
  }

  lemma WonPositive(env: Env, budget: nat, first: nat, n: nat)
    requires WonAt(env, budget, first, n)
    ensures n >= 1
  {
  }

  // ---- every provider lives the life of a single breaker ----

  /** One selection for each listing of the provider. */
  function SelectsOf(ps: seq<ProviderConfig>, n: string, now: int): seq<Act> {
    if ps == [] then []
    else SelectsOf(ps[..|ps| - 1], n, now) + if ps[|ps| - 1].name == n then [Select(now)] else []
  }

  function OutcomeOf(env: Env, k: nat): Act {
    match env.result(k)
    case Ok(_) => Success(env.clock(k))
    case Err(auth) => Failure(env.clock(k), auth)
  }

  function CallActs(env: Env, first: nat, m: nat): (acts: seq<Act>)
    ensures |acts| == m && forall i :: 0 <= i < m ==> !acts[i].Select?
  {
    if m == 0 then [] else CallActs(env, first, m - 1) + [OutcomeOf(env, first + m - 1)]
  }

  /** The provider's own outcomes during a run down the chain. */
  function OutcomesOf(chain: seq<ProviderConfig>, env: Env, used: seq<nat>, n: string): (acts: seq<Act>)
    requires |used| <= |chain|
    ensures forall i :: 0 <= i < |acts| ==> !acts[i].Select?
  {
    if used == [] then []
    else
      var k := |used| - 1;
      OutcomesOf(chain, env, used[..k], n)
      + if chain[k].name == n then CallActs(env, Sum(used[..k]), used[k]) else []
  }

  /** What one operation is to one provider. */
  function OpActs(ps: seq<ProviderConfig>, now: int, chain: seq<ProviderConfig>, env: Env, used: seq<nat>, n: string): seq<Act>
    requires |used| <= |chain|
  {
    SelectsOf(ps, n, now) + OutcomesOf(chain, env, used, n)
  }

  lemma LastStep(cfg: ChainConfig, p: Provider, acts: seq<Act>, a: Act)
    requires WellPosed(cfg.rate)
    ensures Run(cfg, p, acts + [a], true) == Step(cfg, Run(cfg, p, acts, true), a, true)
  {
    assert (acts + [a])[..|acts|] == acts;
  }

  lemma {:induction false} PassingAt(cfg: ChainConfig, bk: Book, ps: seq<ProviderConfig>, now: int, n: string)
    requires WellPosed(cfg.rate) && Tracks(bk, n)
    ensures var end := Passing(cfg, bk, ps, now).0;
            Tracks(end, n) && At(end, n) == Run(cfg, At(bk, n), SelectsOf(ps, n, now), true)
  {
    hide Tracks, At, Available, Choose, Run, Succeeded, Failed;
    if ps == [] {
      NoStep(cfg, At(bk, n));
    } else {
      var k := |ps| - 1;
      PassingAt(cfg, bk, ps[..k], now, n);
      var mid, acts := Passing(cfg, bk, ps[..k], now).0, SelectsOf(ps[..k], n, now);
      BookIsPerProvider(cfg, mid, ps[k].name, now, false, n);
      LastStep(cfg, At(bk, n), acts, Select(now));
      assert acts + [] == acts;
    }
  }

  lemma NoStep(cfg: ChainConfig, p: Provider)
    requires WellPosed(cfg.rate)
    ensures Run(cfg, p, [], true) == p
  {
  }

  lemma {:induction false} RecordedAllAt(cfg: ChainConfig, bk: Book, name: string, env: Env, first: nat, m: nat, n: string)
    requires WellPosed(cfg.rate) && Tracks(bk, n)
    ensures var end := RecordedAll(cfg, bk, name, env, first, m);
            Tracks(end, n) && At(end, n) == if name == n then Run(cfg, At(bk, n), CallActs(env, first, m), true) else At(bk, n)
  {
    hide Tracks, At, Available, Succeed, Fail, Run, Succeeded, Failed;
    if m == 0 {
      NoStep(cfg, At(bk, n));
    } else {
      RecordedAllAt(cfg, bk, name, env, first, m - 1, n);
      var mid, k := RecordedAll(cfg, bk, name, env, first, m - 1), first + m - 1;
      var auth := env.result(k).Err? && env.result(k).auth;
      BookIsPerProvider(cfg, mid, name, env.clock(k), auth, n);
      LastStep(cfg, At(bk, n), CallActs(env, first, m - 1), OutcomeOf(env, k));
    }
  }

  lemma {:induction false} RunBookAt(cfg: ChainConfig, bk: Book, chain: seq<ProviderConfig>, env: Env, used: seq<nat>, n: string)
    requires WellPosed(cfg.rate) && Tracks(bk, n) && |used| <= |chain|
    ensures var end := RunBook(cfg, bk, chain, env, used);
            Tracks(end, n) && At(end, n) == Run(cfg, At(bk, n), OutcomesOf(chain, env, used, n), true)
  {
    hide Tracks, At, Run, RecordedAll, CallActs;
    if used == [] {
      NoStep(cfg, At(bk, n));
    } else {
      var k := |used| - 1;
      RunBookAt(cfg, bk, chain, env, used[..k], n);
      var mid, acts := RunBook(cfg, bk, chain, env, used[..k]), OutcomesOf(chain, env, used[..k], n);
      RecordedAllAt(cfg, mid, chain[k].name, env, Sum(used[..k]), used[k], n);
      RunAppend(cfg, At(bk, n), acts, CallActs(env, Sum(used[..k]), used[k]), true);
      assert acts + [] == acts;
    }
  }

  /** Over a whole operation the maps hold, for each provider, the single-provider machine after
      one selection per listing and then the provider's own outcomes. */
  lemma {:induction false} OperationAt(cfg: ChainConfig, bk: Book, ps: seq<ProviderConfig>, now: int,
                                       chain: seq<ProviderConfig>, env: Env, used: seq<nat>, n: string)
    requires WellPosed(cfg.rate) && Tracks(bk, n) && |used| <= |chain|
    ensures var end := RunBook(cfg, Passing(cfg, bk, ps, now).0, chain, env, used);
            Tracks(end, n) && At(end, n) == Run(cfg, At(bk, n), OpActs(ps, now, chain, env, used, n), true)
  {
    hide Tracks, At, Run, RunBook, Passing, SelectsOf, OutcomesOf;
    PassingAt(cfg, bk, ps, now, n);
    RunBookAt(cfg, Passing(cfg, bk, ps, now).0, chain, env, used, n);
    RunAppend(cfg, At(bk, n), SelectsOf(ps, n, now), OutcomesOf(chain, env, used, n), true);
  }

  /** The check at position `i`, after all earlier ones, lets the provider through. */
  predicate Passes(cfg: ChainConfig, bk: Book, ps: seq<ProviderConfig>, now: int, i: nat)
    requires WellPosed(cfg.rate)
  {
    i < |ps| && Available(cfg, Passing(cfg, bk, ps[..i], now).0, ps[i].name, now).ok
  }

  lemma PassesEarlier(cfg: ChainConfig, bk: Book, ps: seq<ProviderConfig>, now: int, i: nat)
    requires WellPosed(cfg.rate) && ps != [] && i < |ps| - 1
    ensures Passes(cfg, bk, ps[..|ps| - 1], now, i) == Passes(cfg, bk, ps, now, i)
  {
    assert ps[..|ps| - 1][..i] == ps[..i];
  }

  /** The selection is the list read at exactly the positions that pass. */
  lemma {:induction false} PassingPicks(cfg: ChainConfig, bk: Book, ps: seq<ProviderConfig>, now: int) returns (idx: seq<nat>)
    requires WellPosed(cfg.rate)
    ensures Embeds(Passing(cfg, bk, ps, now).1, ps, idx)
    ensures forall i: nat :: i in idx <==> Passes(cfg, bk, ps, now, i)
  {
    if ps == [] {
      idx := [];
    } else {
      var k := |ps| - 1;
      var init := ps[..k];
      idx := PassingPicks(cfg, bk, init, now);
      assert ps == init + [ps[k]];
      EmbedsKeep(Passing(cfg, bk, init, now).1, init, idx, ps[k]);
      forall i: nat ensures Passes(cfg, bk, ps, now, i) <==> Passes(cfg, bk, init, now, i) || (i == k && Passes(cfg, bk, ps, now, k)) {
        if i < k { PassesEarlier(cfg, bk, ps, now, i); }
      }
      assert Passing(cfg, bk, ps, now).1 ==
             if Passes(cfg, bk, ps, now, k) then Passing(cfg, bk, init, now).1 + [ps[k]] else Passing(cfg, bk, init, now).1;
      hide Passes, Passing, Embeds;
      if Passes(cfg, bk, ps, now, k) { idx := idx + [k]; }
    }
  }

  predicate DistinctProviders(ps: seq<ProviderConfig>) {
    forall i, j :: 0 <= i < j < |ps| ==> ps[i].name != ps[j].name
  }

  lemma {:induction false} Unlisted(ps: seq<ProviderConfig>, n: string, now: int)
    requires forall i :: 0 <= i < |ps| ==> ps[i].name != n
    ensures SelectsOf(ps, n, now) == []
  {
    if ps != [] { Unlisted(ps[..|ps| - 1], n, now); }
  }

  /** Among providers with different names each is selected exactly when its own check takes it,
      whatever the others do, and the selection keeps their order. */
  lemma {:induction false} SelectedIff(cfg: ChainConfig, bk: Book, ps: seq<ProviderConfig>, now: int, i: nat)
    requires WellPosed(cfg.rate) && DistinctProviders(ps) && i < |ps| && Tracks(bk, ps[i].name)
    ensures ps[i] in Passing(cfg, bk, ps, now).1 <==> Choose(cfg, At(bk, ps[i].name), now, true).ok
    ensures Subsequence(Passing(cfg, bk, ps, now).1, ps)
  {
    var n, mid := ps[i].name, Passing(cfg, bk, ps[..i], now).0;
    var kept := Passing(cfg, bk, ps, now).1;
    Unlisted(ps[..i], n, now);
    PassingAt(cfg, bk, ps[..i], now, n);
    NoStep(cfg, At(bk, n));
    AvailableAt(cfg, mid, n, now, n);
    var idx := PassingPicks(cfg, bk, ps, now);
    assert i in idx <==> Passes(cfg, bk, ps, now, i);
    hide Passing, Available, Choose, At, Tracks, Run;
    if i in idx {
      var k :| 0 <= k < |idx| && idx[k] == i;
      assert kept[k] == ps[i];
    }
    if ps[i] in kept {
      var k :| 0 <= k < |kept| && kept[k] == ps[i];
      assert ps[idx[k]] == ps[i];
      assert idx[k] == i;
    }
  }

  /** A provider that passed has an admitted selection among those of its listings. */
  lemma {:induction false} PassedIsAdmitted(cfg: ChainConfig, bk: Book, ps: seq<ProviderConfig>, now: int, p: ProviderConfig)
    returns (j: nat)
    requires WellPosed(cfg.rate) && Tracks(bk, p.name) && p in Passing(cfg, bk, ps, now).1
    ensures Admitted(cfg, At(bk, p.name), SelectsOf(ps, p.name, now), j)
  {
    var k, n := |ps| - 1, p.name;
    var mid, acts := Passing(cfg, bk, ps[..k], now), SelectsOf(ps[..k], n, now);
    if p in mid.1 {
      j := PassedIsAdmitted(cfg, bk, ps[..k], now, p);
      AdmittedEarly(cfg, At(bk, n), acts, if ps[k].name == n then [Select(now)] else [], j);
    } else {
      PassingAt(cfg, bk, ps[..k], now, n);
      BookIsPerProvider(cfg, mid.0, n, now, false, n);
      j := |acts|;
      assert (acts + [Select(now)])[..j] == acts;
    }
  }

  lemma AdmittedEarly(cfg: ChainConfig, p: Provider, a: seq<Act>, b: seq<Act>, j: int)
    requires WellPosed(cfg.rate) && Admitted(cfg, p, a, j)
    ensures Admitted(cfg, p, a + b, j)
  {
    assert (a + b)[..j] == a[..j];
  }

  lemma AdmittedLate(cfg: ChainConfig, p: Provider, a: seq<Act>, b: seq<Act>, j: int)
    requires WellPosed(cfg.rate) && Admitted(cfg, Run(cfg, p, a, true), b, j)
    ensures Admitted(cfg, p, a + b, |a| + j)
  {
    RunAppend(cfg, p, a, b[..j], true);
    assert (a + b)[..|a| + j] == a + b[..j];
  }

  lemma SelectsOnly(ps: seq<ProviderConfig>, n: string, now: int)
    ensures OnlySelects(SelectsOf(ps, n, now))
  {
    if ps != [] { SelectsOnly(ps[..|ps| - 1], n, now); }
  }

  lemma {:induction false} OutcomesAreCalls(chain: seq<ProviderConfig>, env: Env, used: seq<nat>, n: string)
    requires |used| <= |chain|
    ensures OutcomesOf(chain, env, used, n) != [] ==> exists k :: 0 <= k < |chain| && chain[k].name == n
  {
    if used != [] { OutcomesAreCalls(chain, env, used[..|used| - 1], n); }
  }

  /** Outcomes are recorded only for providers that the same operation's selection took, so a
      provider's whole history has outcomes only after admitted selections. */
  lemma {:induction false} OperationIsCausal(cfg: ChainConfig, start: Provider, past: seq<Act>, bk: Book,
                                             ps: seq<ProviderConfig>, now: int, chain: seq<ProviderConfig>, env: Env,
                                             used: seq<nat>, n: string)
    requires WellPosed(cfg.rate) && Tracks(bk, n) && At(bk, n) == Run(cfg, start, past, true) && |used| <= |chain|
    requires forall k :: 0 <= k < |chain| ==> chain[k] in Passing(cfg, bk, ps, now).1
    requires Causal(cfg, start, past)
    ensures Causal(cfg, start, past + OpActs(ps, now, chain, env, used, n))
  {
    hide Run, Choose, Passing, SelectsOf, OutcomesOf, Admitted, At, Tracks;
    var sel, out := SelectsOf(ps, n, now), OutcomesOf(chain, env, used, n);
    var all := past + (sel + out);
    SelectsOnly(ps, n, now);
    forall i | 0 <= i < |all| && !all[i].Select? ensures exists j :: j < i && Admitted(cfg, start, all, j) {
      if i < |past| {
        var j :| j < i && Admitted(cfg, start, past, j);
        AdmittedEarly(cfg, start, past, sel + out, j);
      } else {
        OutcomesAreCalls(chain, env, used, n);
        var k :| 0 <= k < |chain| && chain[k].name == n;
        var j := PassedIsAdmitted(cfg, bk, ps, now, chain[k]);
        AdmittedInside(cfg, Run(cfg, start, past, true), sel, j);
        AdmittedEarly(cfg, Run(cfg, start, past, true), sel, out, j);
        AdmittedLate(cfg, start, past, sel + out, j);
        assert all[i] == out[i - |past| - |sel|];
      }
    }
  }

  lemma AdmittedInside(cfg: ChainConfig, p: Provider, acts: seq<Act>, j: int)
    requires WellPosed(cfg.rate) && Admitted(cfg, p, acts, j)
    ensures 0 <= j < |acts|
  {
  }

  predicate Listed(ps: seq<ProviderConfig>, acts: map<string, seq<Act>>) {
    forall i :: 0 <= i < |ps| ==> ps[i].name in acts
  }

  ghost predicate TracedAt(cfg: ChainConfig, bk: Book, n: string, start: int, acts: seq<Act>)
    requires WellPosed(cfg.rate)
  {
    && Tracks(bk, n) && At(bk, n) == Run(cfg, NewProvider(cfg, start), acts, true)
    && Causal(cfg, NewProvider(cfg, start), acts)
  }

  ghost predicate TracedBook(cfg: ChainConfig, bk: Book, starts: map<string, int>, acts: map<string, seq<Act>>)
    requires WellPosed(cfg.rate)
  {
    forall n :: n in acts ==> n in starts && TracedAt(cfg, bk, n, starts[n], acts[n])
  }

  lemma ListedTracks(cfg: ChainConfig, bk: Book, starts: map<string, int>, acts: map<string, seq<Act>>, ps: seq<ProviderConfig>)
    requires WellPosed(cfg.rate) && TracedBook(cfg, bk, starts, acts) && Listed(ps, acts)
    ensures forall i :: 0 <= i < |ps| ==> Tracks(bk, ps[i].name)
  {
    hide Tracks, Run, Causal;
    forall i | 0 <= i < |ps| ensures Tracks(bk, ps[i].name) {
      var n := ps[i].name;
      assert TracedAt(cfg, bk, n, starts[n], acts[n]);
    }
  }

  /** Every history with one operation added. */
  function Longer(ps: seq<ProviderConfig>, now: int, chain: seq<ProviderConfig>, env: Env, used: seq<nat>,
                  acts: map<string, seq<Act>>): map<string, seq<Act>>
    requires |used| <= |chain|
  {
    map n | n in acts :: acts[n] + OpActs(ps, now, chain, env, used, n)
  }

  lemma TracedAdd(cfg: ChainConfig, bk: Book, starts: map<string, int>, acts: map<string, seq<Act>>, name: string, now: int)
    requires WellPosed(cfg.rate) && TracedBook(cfg, bk, starts, acts)
    ensures TracedBook(cfg, Registered(cfg, bk, name, now), starts[name := now], acts[name := []])
  {
    hide Run, Causal;
    NewIsTraced(cfg, now);
    var bk' := Registered(cfg, bk, name, now);
    forall n | n in acts && n != name ensures TracedAt(cfg, bk', n, starts[n], acts[n]) {
      assert TracedAt(cfg, bk, n, starts[n], acts[n]);
    }
  }

  lemma TracedOperation(cfg: ChainConfig, bk: Book, starts: map<string, int>, acts: map<string, seq<Act>>,
                        ps: seq<ProviderConfig>, now: int, chain: seq<ProviderConfig>, env: Env, used: seq<nat>)
    requires WellPosed(cfg.rate) && TracedBook(cfg, bk, starts, acts) && |used| <= |chain|
    requires forall k :: 0 <= k < |chain| ==> chain[k] in Passing(cfg, bk, ps, now).1
    ensures TracedBook(cfg, RunBook(cfg, Passing(cfg, bk, ps, now).0, chain, env, used), starts,
                       Longer(ps, now, chain, env, used, acts))
  {
    hide Run, Causal, Passing, RunBook, OpActs, At;
    var end := RunBook(cfg, Passing(cfg, bk, ps, now).0, chain, env, used);
    forall n | n in acts ensures TracedAt(cfg, end, n, starts[n], acts[n] + OpActs(ps, now, chain, env, used, n)) {
      assert TracedAt(cfg, bk, n, starts[n], acts[n]);
      var p := NewProvider(cfg, starts[n]);
      OperationAt(cfg, bk, ps, now, chain, env, used, n);
      RunAppend(cfg, p, acts[n], OpActs(ps, now, chain, env, used, n), true);
      OperationIsCausal(cfg, p, acts[n], bk, ps, now, chain, env, used, n);
    }
  }

  lemma NewIsTraced(cfg: ChainConfig, now: int)
    requires WellPosed(cfg.rate)
    ensures Run(cfg, NewProvider(cfg, now), [], true) == NewProvider(cfg, now) && Causal(cfg, NewProvider(cfg, now), [])
  {
  }

  /** An open provider is in no selection before its wait is over, however often it is listed,
      and its circuit stays as it is. */
  lemma {:induction false} OpenIsNotSelected(cfg: ChainConfig, bk: Book, ps: seq<ProviderConfig>, now: int, n: string)
    requires WellPosed(cfg.rate) && cfg.breaker.enabled && Tracks(bk, n) && bk.circuits[n].state.OPEN?
    requires now - bk.circuits[n].lastStateChange < cfg.breaker.timeout
    requires now - bk.circuits[n].lastStateChange < AuthFailureTimeout
    ensures forall p :: p in Passing(cfg, bk, ps, now).1 ==> p.name != n
    ensures Tracks(Passing(cfg, bk, ps, now).0, n) && Passing(cfg, bk, ps, now).0.circuits[n] == bk.circuits[n]
  {
    hide Available, Choose;
    if ps != [] {
      var k := |ps| - 1;
      OpenIsNotSelected(cfg, bk, ps[..k], now, n);
      var mid := Passing(cfg, bk, ps[..k], now).0;
      OpenIsRefused(cfg, At(mid, n), now);
      BookIsPerProvider(cfg, mid, ps[k].name, now, false, n);
    }
  }

  // ---- names compare case-insensitively ----

  function LowerChar(c: char): char {
    if 'A' <= c <= 'Z' then (c as int + 32) as char else c
  }

  function ToLower(s: string): string {
    seq(|s|, i requires 0 <= i < |s| => LowerChar(s[i]))
  }

  /** The two letters are the same, or the two cases of one ASCII letter. */
  predicate SameLetter(c: char, d: char) {
    c == d || ('A' <= c <= 'Z' && d as int == c as int + 32) || ('A' <= d <= 'Z' && c as int == d as int + 32)
  }

  lemma FoldsCase(s: string, t: string)
    ensures ToLower(s) == ToLower(t) <==> |s| == |t| && forall i :: 0 <= i < |s| ==> SameLetter(s[i], t[i])
  {
    var a, b := ToLower(s), ToLower(t);
    if a == b {
      forall i | 0 <= i < |s| ensures SameLetter(s[i], t[i]) { assert a[i] == b[i]; }
    }
    if |s| == |t| && forall i :: 0 <= i < |s| ==> SameLetter(s[i], t[i]) {
      forall i | 0 <= i < |s| ensures a[i] == b[i] { assert SameLetter(s[i], t[i]); }
    }
  }

  /** Provider `i` is the first whose name matches, whatever the case. */
  ghost predicate FirstMatch(ps: seq<ProviderConfig>, name: string, i: nat) {
    && i < |ps| && ToLower(ps[i].name) == ToLower(name)
    && forall j :: 0 <= j < i ==> ToLower(ps[j].name) != ToLower(name)
  }

  method FindProviderByName(ps: seq<ProviderConfig>, name: string) returns (r: Option<ProviderConfig>)
    ensures r.None? <==> forall i :: 0 <= i < |ps| ==> ToLower(ps[i].name) != ToLower(name)
    ensures r.Some? ==> exists i: nat :: FirstMatch(ps, name, i) && r.value == ps[i]
  {
    var lower := ToLower(name);
    for i := 0 to |ps|
      invariant forall j :: 0 <= j < i ==> ToLower(ps[j].name) != lower
    {
      if ToLower(ps[i].name) == lower {
        assert FirstMatch(ps, name, i);
        return Some(ps[i]);
      }
    }
    return None;
  }

  /** What a pin makes of the chain: a pin from the call wins over the manager's own, and
      without either the chain stays. None means that no name in the chain matches. */
  ghost predicate NarrowsTo(chain: seq<ProviderConfig>, pin: Option<string>, selected: string,
                            r: Option<seq<ProviderConfig>>) {
    if pin.None? && selected == "" then r == Some(chain)
    else
      var name := if pin.Some? then pin.value else selected;
      match r
      case None => forall i :: 0 <= i < |chain| ==> ToLower(chain[i].name) != ToLower(name)
      case Some(one) => exists i: nat :: FirstMatch(chain, name, i) && one == [chain[i]]
  }

  ghost predicate SortedByPriority(ps: seq<ProviderConfig>) {
    forall i, j :: 0 <= i < j < |ps| ==> ps[i].priority <= ps[j].priority
  }

  function Registered(cfg: ChainConfig, bk: Book, name: string, now: int): Book {
    var p := NewProvider(cfg, now);
    Book(bk.failures[name := p.failure], bk.circuits[name := p.circuit], bk.health[name := p.healthy],
         bk.limiters[name := p.limiter])
  }

  /** Where sorting by priority puts one more provider. */
  function InsertByPriority(ps: seq<ProviderConfig>, p: ProviderConfig): (r: seq<ProviderConfig>)
    ensures forall q :: q in r <==> q == p || q in ps
  {
    if ps == [] || ps[|ps| - 1].priority <= p.priority then ps + [p]
    else InsertByPriority(ps[..|ps| - 1], p) + [ps[|ps| - 1]]
  }

  lemma {:induction false} InsertKeepsAll(ps: seq<ProviderConfig>, p: ProviderConfig)
    ensures multiset(InsertByPriority(ps, p)) == multiset(ps) + multiset{p}
  {
    if ps != [] {
      InsertKeepsAll(ps[..|ps| - 1], p);
      assert ps == ps[..|ps| - 1] + [ps[|ps| - 1]];
    }
  }

  lemma {:induction false} InsertKeepsOrder(ps: seq<ProviderConfig>, p: ProviderConfig)
    requires SortedByPriority(ps)
    ensures SortedByPriority(InsertByPriority(ps, p))
  {
    if ps != [] && ps[|ps| - 1].priority > p.priority {
      var init := InsertByPriority(ps[..|ps| - 1], p);
      InsertKeepsOrder(ps[..|ps| - 1], p);
      forall k | 0 <= k < |init| ensures init[k].priority <= ps[|ps| - 1].priority { assert init[k] in init; }
    }
  }

  class ProviderManager {
    var config: ChainConfig
    var retry: RetryPolicy
    var providers: seq<ProviderConfig>
    var selectedProvider: string
    var failureTracker: map<string, FailureInfo>
    var circuitStates: map<string, CircuitState>
    var healthStates: map<string, bool>
    var rateLimitStates: map<string, Limiter>
    var recordedAttempts: seq<ProviderConfig>  // what the selector was told
    ghost var calls: seq<Call>
    ghost var starts: map<string, int>        // when each provider was added
    ghost var acts: map<string, seq<Act>>     // its selections and outcomes since

    ghost predicate Valid()
      reads this
    {
      WellPosed(config.rate) && forall i :: 0 <= i < |providers| ==> Tracks(View(), providers[i].name)
    }

    /** Each provider's tracking is the single-provider machine after that provider's own
        history, in which outcomes follow admitted selections. */
    ghost predicate Traced()
      reads this
    {
      WellPosed(config.rate) && Listed(providers, acts) && TracedBook(config, View(), starts, acts)
    }

    function View(): Book
      reads this
    {
      Book(failureTracker, circuitStates, healthStates, rateLimitStates)
    }

    constructor (config: ChainConfig, retry: RetryPolicy)
      requires WellPosed(config.rate)
      ensures Valid() && Traced() && providers == [] && calls == [] && acts == map[]
    {
      this.config, this.retry := config, retry;
      providers, selectedProvider, recordedAttempts, calls := [], "", [], [];
      failureTracker, circuitStates, healthStates, rateLimitStates := map[], map[], map[], map[];
      starts, acts := map[], map[];
    }

    /** Registers the provider with fresh tracking and keeps the list sorted by priority; a nil
        provider is skipped. */
    method AddProvider(provider: Option<ProviderConfig>, now: int)
      requires Valid() && Traced() && SortedByPriority(providers)
      modifies this
      ensures Valid() && Traced() && SortedByPriority(providers)
      ensures provider.None? ==> providers == old(providers) && View() == old(View()) && acts == old(acts)
      ensures provider.Some? ==> acts == old(acts)[provider.value.name := []] && starts == old(starts)[provider.value.name := now]
      ensures provider.Some? ==> multiset(providers) == multiset(old(providers)) + multiset{provider.value}
      ensures provider.Some? ==> View() == Registered(config, old(View()), provider.value.name, now)
      ensures config == old(config) && calls == old(calls)
    {
      hide InsertByPriority, SortedByPriority, NewLimiter, NewCircuit, TracedBook, Tracks;
      if provider.None? { return; }
      var p := provider.value;
      TracedAdd(config, View(), starts, acts, p.name, now);
      starts, acts := starts[p.name := now], acts[p.name := []];
      failureTracker := failureTracker[p.name := NoFailures];
      circuitStates := circuitStates[p.name := NewCircuit(now)];
      healthStates := healthStates[p.name := true];
      rateLimitStates := rateLimitStates[p.name := NewLimiter(config.rate.burstSize, now)];
      var sorted := InsertByPriority(providers, p);
      InsertKeepsAll(providers, p);
      InsertKeepsOrder(providers, p);
      forall k | 0 <= k < |sorted| ensures sorted[k].name in acts { assert sorted[k] in sorted; }
      providers := sorted;
      ListedTracks(config, View(), starts, acts, providers);
    }

    method CheckLegacy(name: string, now: int) returns (ok: bool)
      modifies this`failureTracker
      ensures Verdict(View(), ok) == LegacyStage(config, old(View()), name, now)
    {
      ok := true;
      if name in failureTracker {
        var failure := failureTracker[name];
        if failure.temporarilyDown {
          if now - failure.lastFailureTime >= config.breaker.timeout {
            failure := failure.(temporarilyDown := false, consecutiveFailures := 0);
          } else {
            ok := false;
          }
        }
        failureTracker := failureTracker[name := failure];
      }
    }

    method CheckCircuit(name: string, now: int) returns (ok: bool)
      modifies this`circuitStates
      ensures Verdict(View(), ok) == CircuitStage(config, old(View()), name, now)
    {
      ok := true;
      if name in circuitStates {
        var cs := circuitStates[name];
        if config.breaker.enabled {
          match cs.state {
            case CLOSED =>
            case OPEN =>
              var timeout := config.breaker.timeout;
              if name in failureTracker && failureTracker[name].consecutiveAuthFailures >= AuthFailureThreshold {
                timeout := AuthFailureTimeout;
              }
              if now - cs.lastStateChange >= timeout {
                cs := cs.(state := HALF_OPEN, lastStateChange := now, halfOpenCalls := 0);
              } else {
                ok := false;
              }
            case HALF_OPEN =>
              if cs.halfOpenCalls >= config.breaker.halfOpenMaxCalls { ok := false; }
          }
        }
        circuitStates := circuitStates[name := cs];
      }
    }

    method IsProviderAvailable(name: string, now: int) returns (ok: bool)
      requires WellPosed(config.rate)
      modifies this`failureTracker, this`circuitStates, this`rateLimitStates
      ensures Verdict(View(), ok) == Available(config, old(View()), name, now)
    {
      hide LegacyStage, CircuitStage;
      var up := CheckLegacy(name, now);
      if !up { return false; }
      var closed := CheckCircuit(name, now);
      if !closed { return false; }
      if config.healthEnabled && name in healthStates && !healthStates[name] { return false; }
      if config.rate.enabled && name in rateLimitStates {
        var r := Check(config.rate, rateLimitStates[name], now);
        rateLimitStates := rateLimitStates[name := r.limiter];
        return r.ok;
      }
      return true;
    }

    /** The providers that pass every check, arranged by the selection strategy. */
    method GetAvailableProviders(now: int, arrange: seq<ProviderConfig> -> seq<ProviderConfig>)
      returns (chosen: seq<ProviderConfig>)
      requires Valid()
      modifies this`failureTracker, this`circuitStates, this`rateLimitStates
      ensures Valid()
      ensures View() == Passing(config, old(View()), providers, now).0
      ensures chosen == arrange(Passing(config, old(View()), providers, now).1)
    {
      var available := [];
      for i := 0 to |providers|
        invariant (View(), available) == Passing(config, old(View()), providers[..i], now)
        invariant failureTracker.Keys == old(failureTracker).Keys && circuitStates.Keys == old(circuitStates).Keys
        invariant healthStates == old(healthStates) && rateLimitStates.Keys == old(rateLimitStates).Keys
      {
        TakeSnoc(providers, i);
        var ok := IsProviderAvailable(providers[i].name, now);
        if ok { available := available + [providers[i]]; }
      }
      assert providers[..|providers|] == providers;
      chosen := arrange(available);
    }

    method RecordSuccess(name: string, now: int)
      modifies this`failureTracker, this`circuitStates, this`rateLimitStates
      ensures View() == Succeeded(config, old(View()), name, now)
    {
      if name in failureTracker {
        var f := failureTracker[name];
        failureTracker := failureTracker[name := f.(consecutiveFailures := 0, temporarilyDown := false,
                                                    totalSuccesses := f.totalSuccesses + 1,
                                                    consecutiveAuthFailures := 0)];
      }
      if name in circuitStates {
        var cs := circuitStates[name];
        if config.breaker.enabled {
          cs := cs.(consecutiveFailures := 0, consecutiveSuccesses := cs.consecutiveSuccesses + 1);
          if cs.state.HALF_OPEN? && cs.consecutiveSuccesses >= config.breaker.successThreshold {
            cs := cs.(state := CLOSED, lastStateChange := now, halfOpenCalls := 0);
          }
        }
        circuitStates := circuitStates[name := cs];
      }
      if name in rateLimitStates {
        rateLimitStates := rateLimitStates[name := Record(config.rate, rateLimitStates[name], now)];
      }
    }

    method UpdateFailureState(name: string, now: int)
      modifies this`failureTracker, this`circuitStates
      ensures View() == FailedOnce(config, old(View()), name, now)
    {
      if name in failureTracker {
        var f := failureTracker[name];
        f := f.(consecutiveFailures := f.consecutiveFailures + 1, lastFailureTime := now,
                totalFailures := f.totalFailures + 1);
        if f.consecutiveFailures >= config.breaker.failureThreshold { f := f.(temporarilyDown := true); }
        failureTracker := failureTracker[name := f];
      } else {
        failureTracker := failureTracker[name := FailureInfo(1, now, false, 1, 0, 0)];
      }
      if name in circuitStates {
        var cs := circuitStates[name];
        if config.breaker.enabled {
          cs := cs.(consecutiveFailures := cs.consecutiveFailures + 1, consecutiveSuccesses := 0);
          if cs.state.HALF_OPEN? { cs := cs.(halfOpenCalls := cs.halfOpenCalls + 1); }
          if cs.consecutiveFailures >= config.breaker.failureThreshold {
            cs := cs.(state := OPEN, lastStateChange := now);
          }
        }
        circuitStates := circuitStates[name := cs];
      }
    }

    method HandleAuthFailure(name: string, now: int)
      modifies this`failureTracker, this`circuitStates
      ensures View() == AuthEscalated(config, old(View()), name, now)
    {
      if name !in failureTracker { return; }
      var f := failureTracker[name];
      var n := f.consecutiveAuthFailures + 1;
      failureTracker := failureTracker[name := f.(consecutiveAuthFailures := n)];
      if name in circuitStates {
        var cs := circuitStates[name];
        if n >= AuthFailureThreshold && config.breaker.enabled {
          cs := cs.(state := OPEN, lastStateChange := now);
        }
        circuitStates := circuitStates[name := cs];
      }
    }

    method RecordFailureWithError(name: string, auth: bool, now: int)
      modifies this`failureTracker, this`circuitStates
      ensures View() == Failed(config, old(View()), name, now, auth)
    {
      UpdateFailureState(name, now);
      if auth { HandleAuthFailure(name, now); }
    }

    /** Calls `first`, `first + 1`, ... go to one provider until one succeeds, the budget is
        used, or a backoff is cancelled. */
    method AttemptWithRetry(p: ProviderConfig, env: Env, first: nat)
      returns (won: Option<int>, err: LastError, attempts: nat)
      modifies this`failureTracker, this`circuitStates, this`rateLimitStates, this`calls
      ensures View() == RecordedAll(config, old(View()), p.name, env, first, attempts)
      ensures calls == old(calls) + LogOf(p.name, env, first, attempts)
      ensures won.Some? ==> WonAt(env, Budget(retry), first, attempts) && env.result(first + attempts - 1) == Ok(won.value)
      ensures won.None? ==> GaveUp(env, Budget(retry), first, attempts) && err == ReportedBy(Budget(retry), first, attempts)
    {
      hide Recorded;
      var maxAttempts := if retry.enabled && retry.maxAttempts > 1 then retry.maxAttempts else 1;
      attempts, won, err := 0, None, ContextDone;
      while attempts < maxAttempts
        invariant attempts <= maxAttempts && won.None? && (attempts > 0 ==> err == CallError(first + attempts - 1))
        invariant View() == RecordedAll(config, old(View()), p.name, env, first, attempts)
        invariant calls == old(calls) + LogOf(p.name, env, first, attempts)
        invariant forall k :: first <= k < first + attempts ==> env.result(k).Err?
        invariant forall k :: first < k < first + attempts ==> !env.cancelled(k)
      {
        if attempts > 0 && env.cancelled(first + attempts) { return None, ContextDone, attempts; }
        var r := CallOnce(p.name, env, first + attempts);
        attempts := attempts + 1;
        if r.Ok? { return Some(r.data), err, attempts; }
        err := CallError(first + attempts - 1);
      }
    }

    /** Dispatches call number k to the provider and records its outcome. */
    method CallOnce(name: string, env: Env, k: nat) returns (r: OpResult)
      modifies this`failureTracker, this`circuitStates, this`rateLimitStates, this`calls
      ensures View() == Recorded(config, old(View()), name, env, k)
      ensures calls == old(calls) + [Call(name, env.result(k).Ok?)]
      ensures r == env.result(k)
    {
      hide Succeeded, Failed;
      r := env.result(k);
      calls := calls + [Call(name, r.Ok?)];
      match r {
        case Ok(_) => RecordSuccess(name, env.clock(k));
        case Err(auth) => RecordFailureWithError(name, auth, env.clock(k));
      }
    }

    /** Narrows the chain to the pinned provider, if one is pinned by the context or by
        configuration; the pin must be among the available providers. */
    method Narrow(chain: seq<ProviderConfig>, pin: Option<string>) returns (r: Option<seq<ProviderConfig>>)
      ensures NarrowsTo(chain, pin, selectedProvider, r)
    {
      if pin.None? && selectedProvider == "" { return Some(chain); }
      var found := FindProviderByName(chain, if pin.Some? then pin.value else selectedProvider);
      if found.Some? { return Some([found.value]); }
      return None;
    }

    /** Runs the operation down `chain`. `used[k]` is the number of calls provider k made.
        The winner is the first provider that does not give up; `trail` names those before. */
    method RunChain(chain: seq<ProviderConfig>, env: Env)
      returns (r: RunResult, attempts: nat, trail: seq<string>, ghost used: seq<nat>)
      requires chain != []
      modifies this`failureTracker, this`circuitStates, this`rateLimitStates, this`calls, this`recordedAttempts
      ensures ChainOutcome(env, Budget(retry), chain, used, r, trail) && attempts == Sum(used)
      ensures r.Lost? ==> r.err.AllFailed?
      ensures calls == old(calls) + RunLog(chain, env, used)
      ensures View() == RunBook(config, old(View()), chain, env, used)
      ensures recordedAttempts == old(recordedAttempts) + Winner(chain, used, r)
    {
      hide RecordedAll, LogOf, GaveUp, WonAt, AllGaveUp, RunBook, RunLog, LastReported, ReportedBy, Sum;
      ChainEmpty(config, View(), chain, env, Budget(retry));
      attempts, trail, used := 0, [], [];
      var last := ContextDone;
      for i := 0 to |chain|
        invariant |used| == i && attempts == Sum(used)
        invariant calls == old(calls) + RunLog(chain, env, used)
        invariant View() == RunBook(config, old(View()), chain, env, used)
        invariant AllGaveUp(env, Budget(retry), used, i) && last == LastReported(Budget(retry), used)
        invariant trail == Names(chain[..i]) && recordedAttempts == old(recordedAttempts)
      {
        var won, err, n := AttemptWithRetry(chain[i], env, attempts);
        ChainSnoc(config, old(View()), chain, env, used, n);
        ReportedSnoc(Budget(retry), used, n);
        attempts := attempts + n;
        if won.Some? {
          WonOutcome(env, Budget(retry), chain, used, n, won.value);
          used := used + [n];
          recordedAttempts := recordedAttempts + [chain[i]];
          r := Won(won.value, chain[i].name);
          return;
        }
        GaveUpPrefix(env, Budget(retry), used, n);
        used := used + [n];
        trail := trail + [chain[i].name];
        last := err;
      }
      assert chain[..|chain|] == chain;
      assert recordedAttempts == old(recordedAttempts) + [];
      r := Lost(AllFailed(last));
    }

    /** One operation: select, narrow to a pin, fall back down the chain. With no chain to
        run, nothing is called and `chain` is empty. */
    method RunOp(env: Env, now: int, pin: Option<string>, arrange: seq<ProviderConfig> -> seq<ProviderConfig>)
      returns (r: RunResult, attempts: nat, trail: seq<string>, ghost chain: seq<ProviderConfig>, ghost used: seq<nat>)
      requires Valid() && Traced() && Draws(arrange)
      modifies this`failureTracker, this`circuitStates, this`rateLimitStates, this`calls, this`recordedAttempts, this`acts
      ensures ChainOutcome(env, Budget(retry), chain, used, r, trail) && attempts == Sum(used)
      ensures var selected := arrange(Passing(config, old(View()), providers, now).1);
              match r
              case Lost(NoProviders) => selected == [] == chain
              case Lost(NotAvailable(name)) =>
                && chain == [] != selected && NarrowsTo(selected, pin, selectedProvider, None)
                && name == if pin.Some? then pin.value else selectedProvider
              case _ => selected != [] && chain != [] && NarrowsTo(selected, pin, selectedProvider, Some(chain))
      ensures calls == old(calls) + RunLog(chain, env, used)
      ensures View() == RunBook(config, Passing(config, old(View()), providers, now).0, chain, env, used)
      ensures recordedAttempts == old(recordedAttempts) + Winner(chain, used, r)
      ensures forall n :: n in old(View()).failures ==> CountsCalls(old(View()), View(), RunLog(chain, env, used), n)
      ensures forall names :: Roster(names, old(View())) ==> Outcomes(View(), names) == Outcomes(old(View()), names) + attempts
      ensures Valid() && Traced() && acts == Longer(providers, now, chain, env, used, old(acts))
    {
      hide Passing, ChainOutcome, NarrowsTo, CountsCalls, Outcomes, Roster, RunBook, RunLog, TracedBook, OpActs, Sum;
      ghost var start := View();
      r, attempts, trail, chain, used := Operate(env, now, pin, arrange);
      PassingKnown(config, start, providers, now);
      assert forall k :: 0 <= k < |chain| ==> chain[k].name in start.failures;
      RunOpCounts(config, start, providers, now, chain, env, used);
      TracedOperation(config, start, starts, acts, providers, now, chain, env, used);
      acts := Longer(providers, now, chain, env, used, acts);
      ListedTracks(config, View(), starts, acts, providers);
    }

    /** Selects, narrows and runs down the chain. */
    method Operate(env: Env, now: int, pin: Option<string>, arrange: seq<ProviderConfig> -> seq<ProviderConfig>)
      returns (r: RunResult, attempts: nat, trail: seq<string>, ghost chain: seq<ProviderConfig>, ghost used: seq<nat>)
      requires Valid() && Draws(arrange)
      modifies this`failureTracker, this`circuitStates, this`rateLimitStates, this`calls, this`recordedAttempts
      ensures ChainOutcome(env, Budget(retry), chain, used, r, trail) && attempts == Sum(used)
      ensures var selected := arrange(Passing(config, old(View()), providers, now).1);
              match r
              case Lost(NoProviders) => selected == [] == chain
              case Lost(NotAvailable(name)) =>
                && chain == [] != selected && NarrowsTo(selected, pin, selectedProvider, None)
                && name == if pin.Some? then pin.value else selectedProvider
              case _ => selected != [] && chain != [] && NarrowsTo(selected, pin, selectedProvider, Some(chain))
      ensures |used| <= |chain| && forall k :: 0 <= k < |chain| ==> chain[k] in Passing(config, old(View()), providers, now).1
      ensures calls == old(calls) + RunLog(chain, env, used)
      ensures View() == RunBook(config, Passing(config, old(View()), providers, now).0, chain, env, used)
      ensures recordedAttempts == old(recordedAttempts) + Winner(chain, used, r)
    {
      hide Passing, AllGaveUp, NarrowsTo, RunBook, RunLog, LastReported;
      chain, used := [], [];
      ChainEmpty(config, Passing(config, View(), providers, now).0, chain, env, Budget(retry));
      attempts, trail := 0, [];
      var available := GetAvailableProviders(now, arrange);
      if available == [] {
        r := Lost(NoProviders);
        return;
      }
      var narrowed := Narrow(available, pin);
      if narrowed.None? {
        r := Lost(NotAvailable(if pin.Some? then pin.value else selectedProvider));
        return;
      }
      chain := narrowed.value;
      NarrowedKnown(available, pin, selectedProvider, chain);
      hide ChainOutcome;
      r, attempts, trail, used := RunChain(narrowed.value, env);
      OutcomeBound(env, Budget(retry), chain, used, r, trail);
    }

    /** What the single-provider theorems say of every provider of every reachable manager: its
        counters are its history; on a clock that never goes back a raised flag means an open
        circuit (at most ten minutes' timeout), and the provider is not blocked for good unless
        the thresholds or the limiter allow it. */
    lemma EveryProviderObeys(n: string)
      requires Traced() && n in acts && n in starts && Tracks(View(), n)
      ensures var p := At(View(), n);
              && p.failure.totalFailures == Count(acts[n], false) && p.failure.totalSuccesses == Count(acts[n], true)
              && p.failure.consecutiveAuthFailures == AuthFailuresSinceSuccess(acts[n])
              && (config.breaker.enabled ==>
                    && p.circuit.consecutiveFailures == TrailingFailures(acts[n])
                    && p.circuit.consecutiveSuccesses == TrailingSuccesses(acts[n]))
      ensures Ordered(starts[n], acts[n]) && config.breaker.enabled && config.breaker.timeout <= AuthFailureTimeout ==>
                LegacyInv(config.breaker, At(View(), n), Now(starts[n], acts[n]))
      ensures Ordered(starts[n], acts[n]) && NeverExhausts(config.breaker) && Sustains(config.rate) ==>
                !Stuck(config, At(View(), n), Now(starts[n], acts[n]))
    {
      hide Stuck, Causal, LegacyInv, Ordered;
      assert TracedAt(config, View(), n, starts[n], acts[n]);
      CountersAreHistory(config, starts[n], acts[n]);
      if Ordered(starts[n], acts[n]) {
        if config.breaker.enabled && config.breaker.timeout <= AuthFailureTimeout {
          DownImpliesOpen(config, starts[n], acts[n]);
        }
        NeverStuckIff(config, starts[n]);
      }
    }
  }

  /** A strategy orders providers, and may leave some out, but adds none. */
  ghost predicate Draws(arrange: seq<ProviderConfig> -> seq<ProviderConfig>) {
    forall ps, p :: p in arrange(ps) ==> p in ps
  }

  lemma OutcomeBound(env: Env, budget: nat, chain: seq<ProviderConfig>, used: seq<nat>, r: RunResult, trail: seq<string>)
    requires ChainOutcome(env, budget, chain, used, r, trail)
    ensures |used| <= |chain|
  {
  }

  lemma NarrowedKnown(available: seq<ProviderConfig>, pin: Option<string>, selected: string, chain: seq<ProviderConfig>)
    requires NarrowsTo(available, pin, selected, Some(chain))
    ensures forall k :: 0 <= k < |chain| ==> chain[k] in available
    ensures available != [] ==> chain != []
  {
  }

  // ---- the total over all providers ----

  predicate DistinctNames(names: seq<string>) {
    forall i, j :: 0 <= i < j < |names| ==> names[i] != names[j]
  }

  /** Every tracked provider, each once. */
  ghost predicate Roster(names: seq<string>, bk: Book) {
    DistinctNames(names) && forall n :: n in names <==> n in bk.failures
  }

  /** TotalSuccesses + TotalFailures, over the providers listed. */
  function Outcomes(bk: Book, names: seq<string>): nat {
    if names == [] then 0
    else
      var n := names[|names| - 1];
      Outcomes(bk, names[..|names| - 1])
      + if n in bk.failures then bk.failures[n].totalSuccesses + bk.failures[n].totalFailures else 0
  }

  function TallyAll(log: seq<Call>, names: seq<string>): nat {
    if names == [] then 0
    else
      var n := names[|names| - 1];
      TallyAll(log, names[..|names| - 1]) + Tally(log, n, true) + Tally(log, n, false)
  }

  /** One more call is one more call of exactly one provider. */
  lemma {:induction false} TallyAllSnoc(log: seq<Call>, c: Call, names: seq<string>)
    requires DistinctNames(names)
    ensures TallyAll(log + [c], names) == TallyAll(log, names) + if c.name in names then 1 else 0
  {
    if names != [] {
      var k := |names| - 1;
      TallyAllSnoc(log, c, names[..k]);
      TallySnoc(log, c, names[k], true);
      TallySnoc(log, c, names[k], false);
      assert names == names[..k] + [names[k]];
      assert names[k] !in names[..k];
    }
  }

  lemma {:induction false} NoTally(names: seq<string>)
    ensures TallyAll([], names) == 0
  {
    if names != [] { NoTally(names[..|names| - 1]); }
  }

  lemma {:induction false} TallyTotal(log: seq<Call>, names: seq<string>)
    requires DistinctNames(names) && forall k :: 0 <= k < |log| ==> log[k].name in names
    ensures TallyAll(log, names) == |log|
  {
    if log == [] {
      NoTally(names);
    } else {
      var k := |log| - 1;
      TallyTotal(log[..k], names);
      TallyAllSnoc(log[..k], log[k], names);
      assert log == log[..k] + [log[k]];
    }
  }

  lemma {:induction false} OutcomesRise(start: Book, bk: Book, log: seq<Call>, names: seq<string>)
    requires forall i :: 0 <= i < |names| ==> CountsCalls(start, bk, log, names[i])
    ensures Outcomes(bk, names) == Outcomes(start, names) + TallyAll(log, names)
  {
    hide Tally;
    if names != [] {
      OutcomesRise(start, bk, log, names[..|names| - 1]);
      assert CountsCalls(start, bk, log, names[|names| - 1]);
    }
  }

  lemma {:induction false} LogOfNames(name: string, env: Env, first: nat, n: nat, k: nat)
    requires k < n
    ensures LogOf(name, env, first, n)[k].name == name
  {
    if k < n - 1 { LogOfNames(name, env, first, n - 1, k); }
  }

  /** Only providers of the chain are called. */
  lemma {:induction false} RunLogNames(chain: seq<ProviderConfig>, env: Env, used: seq<nat>, k: nat)
    requires |used| <= |chain| && k < |RunLog(chain, env, used)|
    ensures exists i :: 0 <= i < |used| && RunLog(chain, env, used)[k].name == chain[i].name
  {
    var m := |used| - 1;
    var before := RunLog(chain, env, used[..m]);
    if k < |before| {
      RunLogNames(chain, env, used[..m], k);
    } else {
      LogOfNames(chain[m].name, env, Sum(used[..m]), used[m], k - |before|);
      assert RunLog(chain, env, used)[k].name == chain[m].name;
    }
  }

  /** Over a whole operation every provider's success and failure counters rise by exactly
      the calls it received, and together they rise by the number of attempts. */
  lemma {:induction false} RunOpCounts(cfg: ChainConfig, start: Book, providers: seq<ProviderConfig>, now: int,
                                       chain: seq<ProviderConfig>, env: Env, used: seq<nat>)
    requires WellPosed(cfg.rate) && |used| <= |chain|
    requires forall k :: 0 <= k < |chain| ==> chain[k].name in start.failures
    ensures var log, end := RunLog(chain, env, used), RunBook(cfg, Passing(cfg, start, providers, now).0, chain, env, used);
            && |log| == Sum(used)
            && (forall n :: n in start.failures ==> CountsCalls(start, end, log, n))
            && forall names :: Roster(names, start) ==> Outcomes(end, names) == Outcomes(start, names) + Sum(used)
  {
    var log, end := RunLog(chain, env, used), RunBook(cfg, Passing(cfg, start, providers, now).0, chain, env, used);
    forall n | n in start.failures ensures CountsCalls(start, end, log, n) {
      OneCounts(cfg, start, providers, now, chain, env, used, n);
    }
    forall names | Roster(names, start) ensures Outcomes(end, names) == Outcomes(start, names) + Sum(used) {
      hide RunBook, RunLog, Passing, CountsCalls, Outcomes, TallyAll;
      assert forall i :: 0 <= i < |names| ==> names[i] in names;
      OutcomesRise(start, end, log, names);
      forall k | 0 <= k < |log| ensures log[k].name in names { RunLogNames(chain, env, used, k); }
      TallyTotal(log, names);
    }
  }

  lemma OneCounts(cfg: ChainConfig, start: Book, providers: seq<ProviderConfig>, now: int,
                  chain: seq<ProviderConfig>, env: Env, used: seq<nat>, n: string)
    requires WellPosed(cfg.rate) && |used| <= |chain| && n in start.failures
    requires forall k :: 0 <= k < |chain| ==> chain[k].name in start.failures
    ensures CountsCalls(start, RunBook(cfg, Passing(cfg, start, providers, now).0, chain, env, used),
                        RunLog(chain, env, used), n)
  {
    hide RunBook, RunLog, Passing;
    var bk := Passing(cfg, start, providers, now).0;
    PassingCounts(cfg, start, providers, now, n);
    forall k | 0 <= k < |used| ensures chain[k].name in bk.failures {
      PassingCounts(cfg, start, providers, now, chain[k].name);
    }
    CountsRun(cfg, start, bk, chain, env, used, n);
  }

  lemma {:induction false} PassingKnown(cfg: ChainConfig, bk: Book, ps: seq<ProviderConfig>, now: int)
    requires WellPosed(cfg.rate)
    ensures forall p :: p in Passing(cfg, bk, ps, now).1 ==> p in ps
  {
    hide Available;
    if ps != [] { PassingKnown(cfg, bk, ps[..|ps| - 1], now); }
  }

  /** Checking availability counts no call and forgets no provider. */
  lemma {:induction false} PassingCounts(cfg: ChainConfig, bk: Book, ps: seq<ProviderConfig>, now: int, n: string)
    requires WellPosed(cfg.rate) && n in bk.failures
    ensures CountsCalls(bk, Passing(cfg, bk, ps, now).0, [], n)
  {
    if ps != [] {
      PassingCounts(cfg, bk, ps[..|ps| - 1], now, n);
      AvailableCounts(cfg, Passing(cfg, bk, ps[..|ps| - 1], now).0, ps[|ps| - 1].name, now, n);
    }
  }

  lemma AvailableCounts(cfg: ChainConfig, bk: Book, name: string, now: int, n: string)
    requires WellPosed(cfg.rate) && n in bk.failures
    ensures CountsCalls(bk, Available(cfg, bk, name, now).value, [], n)
  {
  }
}
