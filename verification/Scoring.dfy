/** Adaptive provider scores: what each event charges, how the charges decay, and how fast a provider recovers.
    Penalties are kept as exact reals. */
module Scoring {
  import opened Latency

  datatype Config = Config(enabled: bool, healthFail: real, rateLimited: real, authFail: real, slowPerStdDev: real,
                           operationFail: real, timeout: real, successBonus: real, decayRate: real, maxPenalty: real,
                           window: int, slowThreshold: real, minSamples: int)

  datatype EventKind = HealthCheckFailed | HealthCheck429 | HealthCheckAuthFail | HealthCheckTimeout
    | OperationFailed | OperationAuthFail | OperationSuccess | SlowResponse | RateLimited | Unrecognised

  datatype ScoreEvent = ScoreEvent(kind: EventKind, provider: string, responseTime: int)

  datatype Score = Score(priority: int, base: real, health: real, latency: real, errors: real, rateLimit: real,
                         total: nat, successes: nat, failures: nat, recent: seq<int>)

  /** The repairs made when an engine is built. */
  function Validated(c: Config): (r: Config)
    ensures 0.0 <= r.decayRate <= 1.0 && r.window >= 10
    ensures (0.0 <= c.decayRate <= 1.0 ==> r.decayRate == c.decayRate) && (c.window >= 10 ==> r.window == c.window)
    ensures r == c.(decayRate := r.decayRate, window := r.window)
    ensures r.decayRate in {c.decayRate, 0.1} && r.window in {c.window, 10}
  {
    c.(decayRate := if c.decayRate < 0.0 || c.decayRate > 1.0 then 0.1 else c.decayRate,
       window := if c.window < 10 then 10 else c.window)
  }

  ghost predicate Usable(c: Config) {
    && 0.0 <= c.decayRate <= 1.0 && c.window >= 10
    && c.maxPenalty >= 0.0 && c.healthFail >= 0.0 && c.rateLimited >= 0.0 && c.authFail >= 0.0
    && c.operationFail >= 0.0 && c.timeout >= 0.0
  }

  // ---- one score ----

  function Fresh(priority: int): Score {
    var b := 110.0 - priority as real * 10.0;
    Score(priority, if b < 10.0 then 10.0 else b, 0.0, 0.0, 0.0, 0.0, 0, 0, 0, [])
  }

  function Effective(s: Score): real {
    var e := s.base - s.health - s.latency - s.errors - s.rateLimit;
    if e < 0.0 then 0.0 else e
  }

  function Capped(x: real, cap: real): real {
    if x > cap then cap else x
  }

  function NonNegative(x: real): real {
    if x < 0.0 then 0.0 else x
  }

  function Faded(x: real, rate: real): real {
    var y := x * (1.0 - rate);
    if y < 0.01 then 0.0 else y
  }

  function Decayed(s: Score, rate: real): Score {
    s.(health := Faded(s.health, rate), rateLimit := Faded(s.rateLimit, rate), errors := Faded(s.errors, rate))
  }

  function Applied(c: Config, s: Score, kind: EventKind): Score {
    match kind
    case HealthCheckFailed => s.(health := Capped(s.health + c.healthFail, c.maxPenalty))
    case HealthCheck429 => s.(rateLimit := Capped(s.rateLimit + c.rateLimited, c.maxPenalty))
    case HealthCheckAuthFail => s.(health := Capped(s.health + c.authFail, c.maxPenalty))
    case OperationAuthFail => s.(health := Capped(s.health + c.authFail, c.maxPenalty))
    case HealthCheckTimeout => s.(health := Capped(s.health + c.timeout, c.maxPenalty))
    case OperationFailed =>
      s.(errors := Capped(s.errors + c.operationFail, c.maxPenalty), total := s.total + 1, failures := s.failures + 1)
    case RateLimited => s.(rateLimit := Capped(s.rateLimit + c.rateLimited, c.maxPenalty))
    case OperationSuccess =>
      s.(errors := if c.successBonus > 0.0 then NonNegative(s.errors - c.successBonus) else s.errors,
         total := s.total + 1, successes := s.successes + 1)
    case SlowResponse => s
    case Unrecognised => s
  }

  /** The latency penalty for lying `f` standard deviations above the mean. */
  function LatencyCharge(c: Config, f: real): real {
    NonNegative((if f < c.slowThreshold then 0.0 else f - c.slowThreshold) * c.slowPerStdDev)
  }

  /** A provider is charged for slowness exactly when it lies beyond the threshold, and more the further it lies. */
  lemma LatencyChargeMeaning(c: Config, f: real, g: real)
    requires c.slowPerStdDev > 0.0
    ensures LatencyCharge(c, f) > 0.0 <==> f > c.slowThreshold
    ensures f <= g ==> LatencyCharge(c, f) <= LatencyCharge(c, g)
    ensures c.slowThreshold <= f <= g ==> LatencyCharge(c, g) - LatencyCharge(c, f) == (g - f) * c.slowPerStdDev
  {
    assert (g - c.slowThreshold) * c.slowPerStdDev - (f - c.slowThreshold) * c.slowPerStdDev == (g - f) * c.slowPerStdDev;
    ScaleMono(0.0, f - c.slowThreshold, c.slowPerStdDev);
    ScaleMono(0.0, g - c.slowThreshold, c.slowPerStdDev);
    ScaleMono(f - c.slowThreshold, g - c.slowThreshold, c.slowPerStdDev);
    if f > c.slowThreshold { ScalePositive(f - c.slowThreshold, c.slowPerStdDev); }
  }

  lemma ScaleMono(x: real, y: real, k: real)
    requires k >= 0.0
    ensures x <= y ==> x * k <= y * k
  {
    if x <= y {
      var d := y - x;
      assert d * k >= 0.0;
      assert y * k == x * k + d * k;
    }
  }

  lemma ScalePositive(x: real, k: real)
    requires x > 0.0 && k > 0.0
    ensures x * k > 0.0
  {
  }

  /** A higher priority is worth ten points more, down to a floor of ten; a new score is its base. */
  lemma BaseMeaning(priority: int)
    ensures Fresh(1).base == 100.0 && Fresh(priority).base >= 10.0 && Effective(Fresh(priority)) == Fresh(priority).base
    ensures priority < 10 ==> Fresh(priority).base == Fresh(priority + 1).base + 10.0
    ensures priority >= 10 ==> Fresh(priority).base == 10.0
  {
  }

  /** Each penalty costs its full amount, down to a score of zero. */
  lemma PenaltiesCost(s: Score, d: real)
    requires d >= 0.0
    ensures var e := Effective(s);
            forall s' :: s' in {s.(health := s.health + d), s.(latency := s.latency + d),
                                s.(errors := s.errors + d), s.(rateLimit := s.rateLimit + d)} ==>
              Effective(s') == if e >= d then e - d else 0.0
    ensures s.health == s.latency == s.errors == s.rateLimit == 0.0 && s.base >= 0.0 ==> Effective(s) == s.base
  {
  }

  /** A success earns back its bonus, as far as there are error penalties to earn it from. */
  lemma SuccessEarns(c: Config, s: Score)
    requires c.successBonus > 0.0 && s.errors >= 0.0
    ensures var t := Applied(c, s, OperationSuccess);
            && t.errors >= 0.0 && Effective(t) >= Effective(s)
            && (s.errors >= c.successBonus ==> t.errors == s.errors - c.successBonus)
            && (s.errors <= c.successBonus ==> t.errors == 0.0)
            && (s.errors >= c.successBonus && Effective(s) > 0.0 ==> Effective(t) == Effective(s) + c.successBonus)
  {
  }

  /** A tick takes the rate's share off each decaying penalty and drops what falls below a
      hundredth; it leaves the latency penalty and everything else alone. */
  lemma TickMeaning(s: Score, rate: real, x: real)
    ensures Faded(x, rate) == 0.0 || x - Faded(x, rate) == rate * x
    ensures x - rate * x >= 0.01 ==> Faded(x, rate) > 0.0
    ensures x - rate * x < 0.01 ==> Faded(x, rate) == 0.0
    ensures var t := Decayed(s, rate);
            t == s.(health := t.health, rateLimit := t.rateLimit, errors := t.errors)
            && t.health == Faded(s.health, rate) && t.rateLimit == Faded(s.rateLimit, rate) && t.errors == Faded(s.errors, rate)
  {
    assert x * (1.0 - rate) == x - rate * x;
  }

  class ProviderScore {
    const priority: int
    const base: real
    const windowSize: nat
    var health: real
    var latency: real
    var errors: real
    var rateLimit: real
    var total: nat
    var successes: nat
    var failures: nat
    var recent: seq<int>

    ghost function View(): Score
      reads this
    {
      Score(priority, base, health, latency, errors, rateLimit, total, successes, failures, recent)
    }

    constructor (priority: int, windowSize: nat)
      ensures View() == Fresh(priority) && this.windowSize == windowSize
    {
      var b := 110.0 - priority as real * 10.0;
      if b < 10.0 { b := 10.0; }
      this.priority, base, this.windowSize := priority, b, windowSize;
      health, latency, errors, rateLimit := 0.0, 0.0, 0.0, 0.0;
      total, successes, failures, recent := 0, 0, 0, [];
    }

    method EffectiveScore() returns (r: real)
      ensures r == Effective(View())
    {
      var score := base - health - latency - errors - rateLimit;
      if score < 0.0 { return 0.0; }
      return score;
    }

    method AddHealthPenalty(penalty: real, cap: real)
      modifies this
      ensures View() == old(View()).(health := Capped(old(health) + penalty, cap))
    {
      health := health + penalty;
      if health > cap { health := cap; }
    }

    method AddRateLimitPenalty(penalty: real, cap: real)
      modifies this
      ensures View() == old(View()).(rateLimit := Capped(old(rateLimit) + penalty, cap))
    {
      rateLimit := rateLimit + penalty;
      if rateLimit > cap { rateLimit := cap; }
    }

    method AddErrorPenalty(penalty: real, cap: real)
      modifies this
      ensures View() == old(View()).(errors := Capped(old(errors) + penalty, cap), total := old(total) + 1,
                                     failures := old(failures) + 1)
    {
      errors := errors + penalty;
      if errors > cap { errors := cap; }
      failures := failures + 1;
      total := total + 1;
    }

    method RecordSuccess(bonus: real)
      modifies this
      ensures View() == old(View()).(errors := if bonus > 0.0 then NonNegative(old(errors) - bonus) else old(errors),
                                     total := old(total) + 1, successes := old(successes) + 1)
    {
      if bonus > 0.0 {
        errors := errors - bonus;
        if errors < 0.0 { errors := 0.0; }
      }
      successes := successes + 1;
      total := total + 1;
    }

    method RecordLatency(sample: int)
      modifies this
      ensures View() == old(View()).(recent := Slide(old(recent), sample, windowSize))
    {
      recent := recent + [sample];
      if |recent| > windowSize { recent := recent[1..]; }
    }

    method UpdateLatencyPenalty(slowness: real, perStdDev: real)
      modifies this
      ensures View() == old(View()).(latency := NonNegative(slowness * perStdDev))
    {
      latency := slowness * perStdDev;
      if latency < 0.0 { latency := 0.0; }
    }

    method ApplyDecay(rate: real)
      modifies this
      ensures View() == Decayed(old(View()), rate)
    {
      health := health * (1.0 - rate);
      rateLimit := rateLimit * (1.0 - rate);
      errors := errors * (1.0 - rate);
      if health < 0.01 { health := 0.0; }
      if rateLimit < 0.01 { rateLimit := 0.0; }
      if errors < 0.01 { errors := 0.0; }
    }
  }

  // ---- the engine ----

  /** Every registered score, and the samples peers are compared by. */
  datatype Board = Board(scores: map<string, Score>, samples: Samples)

  datatype Op = Register(name: string, priority: int) | Unregister(name: string) | Record(event: ScoreEvent) | Tick

  function Registered(b: Board, name: string, priority: int): Board {
    if name in b.scores then b else b.(scores := b.scores[name := Fresh(priority)])
  }

  function Window(samples: Samples, provider: string): seq<int> {
    if provider in samples then samples[provider] else []
  }

  /** The latency penalty of a provider whose samples have just changed. */
  ghost function Compared(c: Config, samples: Samples, provider: string, before: real): real {
    var all := GlobalOf(samples);
    if all.sampleCount < c.minSamples then before
    else LatencyCharge(c, Slowness(Window(samples, provider), all))
  }

  ghost function Timed(c: Config, b: Board, provider: string, sample: int): Board
    requires provider in b.scores && c.window >= 10
  {
    var samples := b.samples[provider := Slide(Window(b.samples, provider), sample, c.window)];
    var s := b.scores[provider];
    Board(b.scores[provider := s.(recent := Slide(s.recent, sample, c.window),
                                  latency := Compared(c, samples, provider, s.latency))], samples)
  }

  /** The board after the latency half of an event. */
  ghost function Sampled(c: Config, b: Board, e: ScoreEvent): Board
    requires e.provider in b.scores && c.window >= 10
  {
    if e.responseTime > 0 then Timed(c, b, e.provider, e.responseTime) else b
  }

  ghost function Recorded(c: Config, b: Board, e: ScoreEvent): Board
    requires c.window >= 10
  {
    if !c.enabled || e.provider !in b.scores then b
    else
      var b' := Sampled(c, b, e);
      b'.(scores := b'.scores[e.provider := Applied(c, b'.scores[e.provider], e.kind)])
  }

  /** An event is one update of the named provider's score. */
  lemma OneUpdate(c: Config, b: Board, e: ScoreEvent)
    requires c.window >= 10 && c.enabled && e.provider in b.scores
    ensures e.provider in Sampled(c, b, e).scores
    ensures Recorded(c, b, e) ==
              Board(b.scores[e.provider := Applied(c, Sampled(c, b, e).scores[e.provider], e.kind)], Sampled(c, b, e).samples)
  {
    hide Applied, Compared, Slide;
  }

  function Ticked(c: Config, b: Board): Board {
    b.(scores := map n | n in b.scores :: Decayed(b.scores[n], c.decayRate))
  }

  ghost function Do(c: Config, b: Board, op: Op): Board
    requires c.window >= 10
  {
    match op
    case Register(n, p) => Registered(b, n, p)
    case Unregister(n) => b.(scores := b.scores - {n})
    case Record(e) => Recorded(c, b, e)
    case Tick => Ticked(c, b)
  }

  ghost function Run(c: Config, b: Board, ops: seq<Op>): Board
    requires c.window >= 10
  {
    if ops == [] then b else Do(c, Run(c, b, ops[..|ops| - 1]), ops[|ops| - 1])
  }

  class Engine {
    const config: Config
    const tracker: LatencyTracker
    var scores: map<string, ProviderScore>

    /** One score object per name, none shared. */
    ghost predicate Valid()
      reads this, tracker, scores.Values
    {
      && config.window >= 10 && tracker.Valid() && tracker.windowSize == config.window
      && (forall n :: n in scores ==> scores[n].windowSize == config.window)
      && (forall m, n :: m in scores && n in scores && m != n ==> scores[m] != scores[n])
    }

    ghost function View(): Board
      reads this, tracker, scores.Values
    {
      Board(map n | n in scores :: scores[n].View(), tracker.samples)
    }

    constructor (config: Config)
      ensures Valid() && fresh(tracker) && View() == Board(map[], map[]) && this.config == Validated(config)
    {
      this.config := Validated(config);
      tracker := new LatencyTracker(Validated(config).window);
      scores := map[];
    }

    method RegisterProvider(name: string, priority: int)
      requires Valid()
      modifies this
      ensures Valid() && View() == Registered(old(View()), name, priority)
      ensures forall n :: n in scores ==> (n in old(scores) && scores[n] == old(scores)[n]) || fresh(scores[n])
    {
      if name in scores { return; }
      var score := new ProviderScore(priority, config.window);
      ghost var was := View();
      scores := scores[name := score];
      ViewIs(was.scores[name := score.View()]);
    }

    method UnregisterProvider(name: string)
      requires Valid()
      modifies this
      ensures Valid() && View() == old(View()).(scores := old(View().scores) - {name})
      ensures scores == old(scores) - {name}
    {
      scores := scores - {name};
    }

    method UpdateLatencyPenalty(provider: string)
      requires Valid() && provider in scores
      modifies tracker, scores[provider]
      ensures Valid() && tracker.samples == old(tracker.samples)
      ensures scores[provider].View() == old(scores[provider].View()).(
                latency := Compared(config, tracker.samples, provider, old(scores[provider].latency)))
    {
      var all := tracker.GetGlobalStats();
      GlobalUnique(tracker.samples, all);
      if all.sampleCount < config.minSamples { return; }
      var slowness := tracker.GetProviderSlownessFactor(provider);
      if slowness < config.slowThreshold { slowness := 0.0; } else { slowness := slowness - config.slowThreshold; }
      scores[provider].UpdateLatencyPenalty(slowness, config.slowPerStdDev);
    }

    lemma ViewIs(want: map<string, Score>)
      requires want.Keys == scores.Keys && forall n :: n in scores ==> scores[n].View() == want[n]
      ensures View().scores == want
    {
      hide ProviderScore.View;
    }

    /** Changing one score object changes one entry of the view. */
    twostate lemma ViewWith(name: string)
      requires scores == old(scores) && name in scores
      requires forall n :: n in scores && n != name ==> scores[n].View() == old(scores[n].View())
      ensures View().scores == old(View()).scores[name := scores[name].View()]
    {
      hide ProviderScore.View;
    }

    method TakeSample(provider: string, sample: int)
      requires Valid() && provider in scores
      modifies tracker, scores[provider]
      ensures Valid()
      ensures var b := Timed(config, old(View()), provider, sample);
              tracker.samples == b.samples && scores[provider].View() == b.scores[provider]
    {
      hide Slide, Compared;
      tracker.RecordLatency(provider, sample);
      scores[provider].RecordLatency(sample);
      UpdateLatencyPenalty(provider);
    }

    method Dispatch(score: ProviderScore, kind: EventKind)
      modifies score
      ensures score.View() == Applied(config, old(score.View()), kind)
    {
      match kind {
        case HealthCheckFailed => score.AddHealthPenalty(config.healthFail, config.maxPenalty);
        case HealthCheck429 => score.AddRateLimitPenalty(config.rateLimited, config.maxPenalty);
        case HealthCheckAuthFail => score.AddHealthPenalty(config.authFail, config.maxPenalty);
        case OperationAuthFail => score.AddHealthPenalty(config.authFail, config.maxPenalty);
        case HealthCheckTimeout => score.AddHealthPenalty(config.timeout, config.maxPenalty);
        case OperationFailed => score.AddErrorPenalty(config.operationFail, config.maxPenalty);
        case RateLimited => score.AddRateLimitPenalty(config.rateLimited, config.maxPenalty);
        case OperationSuccess => score.RecordSuccess(config.successBonus);
        case SlowResponse =>
        case Unrecognised =>
      }
    }

    method RecordEvent(event: ScoreEvent)
      requires Valid()
      modifies tracker, scores.Values
      ensures Valid() && View() == Recorded(config, old(View()), event)
    {
      if !config.enabled || event.provider !in scores { return; }
      ghost var was := View();
      if event.responseTime > 0 { TakeSample(event.provider, event.responseTime); }
      Dispatch(scores[event.provider], event.kind);
      ViewWith(event.provider);
      OneUpdate(config, was, event);
    }

    method ApplyDecay()
      requires Valid()
      modifies scores.Values
      ensures Valid() && View() == Ticked(config, old(View()))
    {
      hide Decayed;
      ghost var was := View();
      var left := scores.Keys;
      while left != {}
        invariant Valid() && left <= scores.Keys
        invariant forall n :: n in left ==> scores[n].View() == old(scores[n].View())
        invariant forall n :: n in scores && n !in left ==>
                    scores[n].View() == Decayed(old(scores[n].View()), config.decayRate)
        decreases left
      {
        var n :| n in left;
        scores[n].ApplyDecay(config.decayRate);
        left := left - {n};
      }
      ViewIs(Ticked(config, was).scores);
    }
  }

  // ---- bounds over every run ----

  ghost predicate Between(x: real, cap: real) {
    0.0 <= x <= cap
  }

  ghost predicate InBounds(c: Config, s: Score) {
    && Between(s.health, c.maxPenalty) && Between(s.rateLimit, c.maxPenalty) && Between(s.errors, c.maxPenalty)
    && s.latency >= 0.0 && s.base >= 10.0 && s.total == s.successes + s.failures && |s.recent| <= c.window
  }

  ghost predicate AllInBounds(c: Config, b: Board) {
    forall n :: n in b.scores ==> InBounds(c, b.scores[n])
  }

  lemma FadedShrinks(x: real, rate: real)
    requires x >= 0.0 && 0.0 <= rate <= 1.0
    ensures 0.0 <= Faded(x, rate) <= x
  {
    Remainder(x, rate);
  }

  lemma Remainder(x: real, rate: real)
    requires x >= 0.0 && 0.0 <= rate <= 1.0
    ensures 0.0 <= x * (1.0 - rate) <= x
  {
    ScaleMono(0.0, 1.0 - rate, x);
    ScaleMono(1.0 - rate, 1.0, x);
  }

  /** The latency half of an event leaves everything but the latency fields of the named provider alone. */
  lemma SampledAt(c: Config, b: Board, e: ScoreEvent, p: string)
    requires c.window >= 10 && e.provider in b.scores && p in b.scores
    ensures p in Sampled(c, b, e).scores
    ensures var s, t := b.scores[p], Sampled(c, b, e).scores[p];
            && t == s.(latency := t.latency, recent := t.recent)
            && (e.provider != p ==> t == s)
            && (s.latency >= 0.0 ==> t.latency >= 0.0)
            && (|s.recent| <= c.window ==> |t.recent| <= c.window)
  {
    hide GlobalOf, Slowness;
  }

  /** An event reaches the named provider only. */
  lemma {:induction false} RecordedAt(c: Config, b: Board, e: ScoreEvent, p: string)
    requires c.window >= 10 && p in b.scores
    ensures p in Recorded(c, b, e).scores
    ensures !c.enabled || e.provider != p ==> Recorded(c, b, e).scores[p] == b.scores[p]
    ensures c.enabled && e.provider == p ==>
              p in Sampled(c, b, e).scores && Recorded(c, b, e).scores[p] == Applied(c, Sampled(c, b, e).scores[p], e.kind)
  {
    hide Sampled, Applied;
    if e.provider in b.scores { SampledAt(c, b, e, p); }
  }

  lemma AppliedKeepsBounds(c: Config, s: Score, kind: EventKind)
    requires Usable(c) && InBounds(c, s)
    ensures InBounds(c, Applied(c, s, kind))
  {
  }

  lemma RecordedKeepsBounds(c: Config, b: Board, e: ScoreEvent, p: string)
    requires Usable(c) && AllInBounds(c, b) && p in b.scores
    ensures InBounds(c, Recorded(c, b, e).scores[p])
  {
    RecordedAt(c, b, e, p);
    hide Recorded, Applied, Sampled;
    if c.enabled && e.provider == p {
      SampledAt(c, b, e, p);
      AppliedKeepsBounds(c, Sampled(c, b, e).scores[p], e.kind);
    }
  }

  lemma DecayedKeepsBounds(c: Config, s: Score)
    requires Usable(c) && InBounds(c, s)
    ensures InBounds(c, Decayed(s, c.decayRate))
  {
    hide Faded;
    FadedShrinks(s.health, c.decayRate);
    FadedShrinks(s.rateLimit, c.decayRate);
    FadedShrinks(s.errors, c.decayRate);
  }

  lemma SameNames(c: Config, b: Board, e: ScoreEvent)
    requires c.window >= 10
    ensures Recorded(c, b, e).scores.Keys == b.scores.Keys
  {
    hide Compared, Applied, Slide;
  }

  lemma DoKeepsBounds(c: Config, b: Board, op: Op)
    requires Usable(c) && AllInBounds(c, b)
    ensures AllInBounds(c, Do(c, b, op))
  {
    hide Recorded, Decayed, InBounds;
    match op {
      case Record(e) =>
        SameNames(c, b, e);
        forall n | n in b.scores ensures InBounds(c, Recorded(c, b, e).scores[n]) { RecordedKeepsBounds(c, b, e, n); }
      case Tick =>
        forall n | n in b.scores ensures InBounds(c, Decayed(b.scores[n], c.decayRate)) {
          DecayedKeepsBounds(c, b.scores[n]);
        }
      case Register(_, priority) => FreshInBounds(c, priority);
      case Unregister(_) =>
    }
  }

  lemma FreshInBounds(c: Config, priority: int)
    requires Usable(c)
    ensures InBounds(c, Fresh(priority))
  {
  }

  /** Whatever happens, in whatever order: each category stays between nothing and the cap, the score lies between
      zero and its base, and the operation counters add up. */
  lemma {:induction false} PenaltiesStayBounded(c: Config, b: Board, ops: seq<Op>)
    requires Usable(c) && AllInBounds(c, b)
    ensures AllInBounds(c, Run(c, b, ops))
    ensures forall n :: n in Run(c, b, ops).scores ==>
              0.0 <= Effective(Run(c, b, ops).scores[n]) <= Run(c, b, ops).scores[n].base
  {
    if ops != [] {
      PenaltiesStayBounded(c, b, ops[..|ops| - 1]);
      DoKeepsBounds(c, Run(c, b, ops[..|ops| - 1]), ops[|ops| - 1]);
    }
  }

  // ---- charges add up ----

  datatype Category = Health | RateLimiting | Errors

  function Penalty(s: Score, k: Category): real {
    match k
    case Health => s.health
    case RateLimiting => s.rateLimit
    case Errors => s.errors
  }

  /** What an event is worth in a category. */
  function Charge(c: Config, kind: EventKind, k: Category): real {
    match k
    case Health =>
      if kind == HealthCheckFailed then c.healthFail
      else if kind == HealthCheckTimeout then c.timeout
      else if kind == HealthCheckAuthFail || kind == OperationAuthFail then c.authFail
      else 0.0
    case RateLimiting => if kind == RateLimited || kind == HealthCheck429 then c.rateLimited else 0.0
    case Errors => if kind == OperationFailed then c.operationFail else 0.0
  }

  function Charged(c: Config, op: Op, p: string, k: Category): real {
    if c.enabled && op.Record? && op.event.provider == p then Charge(c, op.event.kind, k) else 0.0
  }

  function Charges(c: Config, ops: seq<Op>, p: string, k: Category): real {
    if ops == [] then 0.0 else Charges(c, ops[..|ops| - 1], p, k) + Charged(c, ops[|ops| - 1], p, k)
  }

  function Counted(c: Config, op: Op, p: string, kind: EventKind): nat {
    if c.enabled && op.Record? && op.event.provider == p && op.event.kind == kind then 1 else 0
  }

  function Count(c: Config, ops: seq<Op>, p: string, kind: EventKind): nat {
    if ops == [] then 0 else Count(c, ops[..|ops| - 1], p, kind) + Counted(c, ops[|ops| - 1], p, kind)
  }

  /** No relief for provider `p` in category `k`: no decay, no success, no removal. */
  ghost predicate Charging(ops: seq<Op>, p: string, k: Category) {
    forall i :: 0 <= i < |ops| ==>
      match ops[i]
      case Tick => false
      case Unregister(n) => n != p
      case Record(e) => e.provider == p && e.kind == OperationSuccess ==> k != Errors
      case Register(_, _) => true
  }

  /** Between decays a category holds its charges added up and capped once, in whatever order and however mixed with
      other providers' events they came. */
  lemma {:induction false} ChargesAddUp(c: Config, b: Board, ops: seq<Op>, p: string, k: Category)
    requires Usable(c) && p in b.scores && Between(Penalty(b.scores[p], k), c.maxPenalty) && Charging(ops, p, k)
    ensures p in Run(c, b, ops).scores && Charges(c, ops, p, k) >= 0.0
    ensures Penalty(Run(c, b, ops).scores[p], k) == Capped(Penalty(b.scores[p], k) + Charges(c, ops, p, k), c.maxPenalty)
  {
    hide Recorded, Ticked;
    if ops != [] {
      var m := |ops| - 1;
      ChargesAddUp(c, b, ops[..m], p, k);
      assert Charging([ops[m]], p, k) by { assert Charging(ops, p, k) ==> [ops[m]][0] == ops[m]; }
      OneCharge(c, Run(c, b, ops[..m]), ops[m], p, k);
      CapOnce(Penalty(b.scores[p], k) + Charges(c, ops[..m], p, k), Charged(c, ops[m], p, k), c.maxPenalty);
    }
  }

  /** Capping after every charge is capping once. */
  lemma CapOnce(x: real, d: real, cap: real)
    requires d >= 0.0
    ensures Capped(Capped(x, cap) + d, cap) == Capped(x + d, cap)
  {
  }

  lemma OneCharge(c: Config, b: Board, op: Op, p: string, k: Category)
    requires Usable(c) && p in b.scores && Penalty(b.scores[p], k) <= c.maxPenalty && Charging([op], p, k)
    ensures p in Do(c, b, op).scores && Charged(c, op, p, k) >= 0.0
    ensures Penalty(Do(c, b, op).scores[p], k) == Capped(Penalty(b.scores[p], k) + Charged(c, op, p, k), c.maxPenalty)
  {
    assert Charging([op], p, k) ==> [op][0] == op;
    if op.Record? {
      RecordedAt(c, b, op.event, p);
      if c.enabled && op.event.provider == p {
        SampledAt(c, b, op.event, p);
        ChargeApplied(c, Sampled(c, b, op.event).scores[p], op.event.kind, k);
      }
    }
    hide Charging, Recorded, Sampled, Charge, Applied;
  }

  lemma ChargeApplied(c: Config, s: Score, kind: EventKind, k: Category)
    requires Usable(c) && Penalty(s, k) <= c.maxPenalty && (kind == OperationSuccess ==> k != Errors)
    ensures Penalty(Applied(c, s, kind), k) == Capped(Penalty(s, k) + Charge(c, kind, k), c.maxPenalty)
    ensures Charge(c, kind, k) >= 0.0
  {
  }

  ghost predicate Kept(ops: seq<Op>, p: string) {
    forall i :: 0 <= i < |ops| ==> ops[i] != Unregister(p)
  }

  /** The operation counters are the number of operation events, whatever else happens. */
  lemma {:induction false} CountersAreHistory(c: Config, b: Board, ops: seq<Op>, p: string)
    requires c.window >= 10 && p in b.scores && Kept(ops, p)
    ensures p in Run(c, b, ops).scores
    ensures var s, t := b.scores[p], Run(c, b, ops).scores[p];
            && t.successes == s.successes + Count(c, ops, p, OperationSuccess)
            && t.failures == s.failures + Count(c, ops, p, OperationFailed)
            && t.total == s.total + Count(c, ops, p, OperationSuccess) + Count(c, ops, p, OperationFailed)
            && t.base == s.base
  {
    hide Do, Counted;
    if ops != [] {
      var m := |ops| - 1;
      CountersAreHistory(c, b, ops[..m], p);
      OneCount(c, Run(c, b, ops[..m]), ops[m], p);
    }
  }

  lemma OneCount(c: Config, b: Board, op: Op, p: string)
    requires c.window >= 10 && p in b.scores && op != Unregister(p)
    ensures p in Do(c, b, op).scores
    ensures var s, t := b.scores[p], Do(c, b, op).scores[p];
            && t.successes == s.successes + Counted(c, op, p, OperationSuccess)
            && t.failures == s.failures + Counted(c, op, p, OperationFailed)
            && t.total == s.total + Counted(c, op, p, OperationSuccess) + Counted(c, op, p, OperationFailed)
            && t.base == s.base
  {
    hide Sampled, Faded;
    if op.Record? {
      RecordedAt(c, b, op.event, p);
      hide Recorded;
      if c.enabled && op.event.provider == p { SampledAt(c, b, op.event, p); }
    }
  }

  /** The category an event is charged to, if any. */
  function CategoryOf(kind: EventKind): Category {
    if kind == OperationFailed then Errors
    else if kind == RateLimited || kind == HealthCheck429 then RateLimiting
    else Health
  }

  /** An event with a weight lowers the named provider's score, unless the penalty is at its cap or
      the score at zero already. */
  lemma {:induction false} EventsCost(c: Config, b: Board, e: ScoreEvent)
    requires Usable(c) && c.enabled && e.provider in b.scores && e.responseTime <= 0
    requires InBounds(c, b.scores[e.provider]) && Effective(b.scores[e.provider]) > 0.0
    requires e.kind !in {OperationSuccess, SlowResponse, Unrecognised}
    requires Charge(c, e.kind, CategoryOf(e.kind)) > 0.0
    requires Penalty(b.scores[e.provider], CategoryOf(e.kind)) < c.maxPenalty
    ensures Effective(Recorded(c, b, e).scores[e.provider]) < Effective(b.scores[e.provider])
  {
    RecordedAt(c, b, e, e.provider);
    hide Recorded;
  }

  /** With enough samples the slower of two providers is charged no less; with too few nobody's
      charge changes. */
  lemma {:induction false} SlowerCostsMore(c: Config, samples: Samples, p: string, q: string, x: real, y: real)
    requires c.slowPerStdDev >= 0.0 && Window(samples, p) != [] && Window(samples, q) != []
    requires Mean(Window(samples, p)) <= Mean(Window(samples, q))
    ensures GlobalOf(samples).sampleCount >= c.minSamples ==> Compared(c, samples, p, x) <= Compared(c, samples, q, y)
    ensures GlobalOf(samples).sampleCount < c.minSamples ==> Compared(c, samples, p, x) == x
  {
    var all := GlobalOf(samples);
    var f, g := Slowness(Window(samples, p), all), Slowness(Window(samples, q), all);
    if all.stdDev > 0 {
      SlownessMeaning(Window(samples, p), Window(samples, q), all);
      SlownessMeaning(Window(samples, q), Window(samples, p), all);
    } else {
      DeviationsArePositive(samples);
    }
    if c.slowPerStdDev == 0.0 { assert LatencyCharge(c, f) == LatencyCharge(c, g) == 0.0; }
    hide GlobalOf, Slowness, LatencyCharge, Mean;
    assert f <= g;
    if c.slowPerStdDev > 0.0 { LatencyChargeMeaning(c, f, g); }
  }

  lemma DeviationsArePositive(samples: Samples)
    ensures GlobalOf(samples).stdDev >= 0
  {
    HasOrder(samples);
    hide Sort, Percentile, Sum, Deviation;
  }

  /** The response time an operation counts for a provider, if any: one of its own events, while it
      is registered and scoring is on. */
  function Timing(c: Config, b: Board, op: Op, p: string): seq<int> {
    if c.enabled && op.Record? && op.event.provider == p && op.event.responseTime > 0 && p in b.scores
    then [op.event.responseTime] else []
  }

  ghost function TimesOf(c: Config, b: Board, ops: seq<Op>, p: string): seq<int>
    requires c.window >= 10
  {
    if ops == [] then []
    else TimesOf(c, b, ops[..|ops| - 1], p) + Timing(c, Run(c, b, ops[..|ops| - 1]), ops[|ops| - 1], p)
  }

  /** Over any run the samples kept for a provider are the newest of those counted. */
  lemma {:induction false} SamplesAreHistory(c: Config, b: Board, ops: seq<Op>, p: string)
    requires c.window >= 10 && |Window(b.samples, p)| <= c.window
    ensures Window(Run(c, b, ops).samples, p) == LastOf(Window(b.samples, p) + TimesOf(c, b, ops, p), c.window)
  {
    if ops == [] {
      assert Window(b.samples, p) + [] == Window(b.samples, p);
    } else {
      var k := |ops| - 1;
      SamplesAreHistory(c, b, ops[..k], p);
      hide Do, Window, LastOf, Timing;
      var before, past := Run(c, b, ops[..k]), TimesOf(c, b, ops[..k], p);
      OneSample(c, before, ops[k], p, Window(b.samples, p) + past);
      assert Window(b.samples, p) + past + Timing(c, before, ops[k], p) ==
             Window(b.samples, p) + (past + Timing(c, before, ops[k], p));
    }
  }

  /** A provider that leaves is forgotten, and only it; the samples stay. */
  lemma LeavingForgets(c: Config, b: Board, p: string)
    requires c.window >= 10
    ensures var b' := Do(c, b, Unregister(p));
            && p !in b'.scores && b'.samples == b.samples
            && forall n :: n in b.scores && n != p ==> n in b'.scores && b'.scores[n] == b.scores[n]
  {
  }

  /** A score's own window goes on holding the newest of its past. */
  lemma {:induction false} RecentIsNewest(c: Config, b: Board, p: string, x: int, past: seq<int>)
    requires c.window >= 10 && p in b.scores && b.scores[p].recent == LastOf(past, c.window)
    ensures Timed(c, b, p, x).scores[p].recent == LastOf(past + [x], c.window)
  {
    SlideNewest(past, x, c.window);
    hide Compared, Slide, LastOf;
  }

  lemma OneSample(c: Config, b: Board, op: Op, p: string, past: seq<int>)
    requires c.window >= 10 && Window(b.samples, p) == LastOf(past, c.window)
    ensures Window(Do(c, b, op).samples, p) == LastOf(past + Timing(c, b, op, p), c.window)
  {
    SampleKept(c, b, op, p);
    if Timing(c, b, op, p) == [] {
      assert past + [] == past;
    } else {
      SlideNewest(past, op.event.responseTime, c.window);
    }
    hide Do, Slide, LastOf;
  }

  lemma SampleKept(c: Config, b: Board, op: Op, p: string)
    requires c.window >= 10
    ensures Window(Do(c, b, op).samples, p) ==
              if Timing(c, b, op, p) != [] then Slide(Window(b.samples, p), op.event.responseTime, c.window)
              else Window(b.samples, p)
  {
    hide Compared, Applied, Slide;
  }

  // ---- recovery ----

  /** Nothing in the run charges provider `p`. */
  ghost predicate Quiet(ops: seq<Op>, p: string) {
    forall i :: 0 <= i < |ops| ==>
      match ops[i]
      case Unregister(n) => n != p
      case Record(e) => e.provider != p || e.kind in {OperationSuccess, SlowResponse, Unrecognised}
      case Tick => true
      case Register(_, _) => true
  }

  function Ticks(ops: seq<Op>): nat {
    if ops == [] then 0 else Ticks(ops[..|ops| - 1]) + if ops[|ops| - 1].Tick? then 1 else 0
  }

  ghost predicate Enough(n: nat, rate: real, cap: real) {
    n as real * rate >= 100.0 * cap
  }

  /** `x` has come down far enough for `n` ticks. */
  ghost predicate Recovering(x: real, n: nat, rate: real, cap: real) {
    x >= 0.0 && x * (1.0 + n as real * rate) <= cap && (Enough(n, rate, cap) ==> x == 0.0)
  }

  /** One more tick: (1-r)(1+(n+1)r) <= 1+nr. */
  lemma TickRecovers(x: real, n: nat, rate: real, cap: real)
    requires 0.0 <= rate <= 1.0 && Recovering(x, n, rate, cap)
    ensures Recovering(Faded(x, rate), n + 1, rate, cap)
  {
    var y, k := x * (1.0 - rate), n as real;
    var t := (n + 1) as real * rate;
    assert t == (k + 1.0) * rate && t >= 0.0;
    Bernoulli(x, y, k, t, rate);
    FadedShrinks(x, rate);
    SnapKeeps(y, t, cap);
  }

  lemma SnapKeeps(y: real, t: real, cap: real)
    requires y >= 0.0 && t >= 0.0 && y * (1.0 + t) <= cap
    ensures var z := if y < 0.01 then 0.0 else y;
            z * (1.0 + t) <= cap && (t >= 100.0 * cap ==> z == 0.0)
  {
    ScaleMono(0.0, y, 1.0 + t);
    ScaleMono(0.01, y, 1.0 + t);
  }

  lemma Bernoulli(x: real, y: real, k: real, t: real, rate: real)
    requires x >= 0.0 && k >= 0.0 && 0.0 <= rate <= 1.0 && y == x * (1.0 - rate) && t == (k + 1.0) * rate
    ensures y * (1.0 + t) <= x * (1.0 + k * rate)
  {
    var d := t * rate;
    assert d >= 0.0;
    assert (1.0 - rate) * (1.0 + t) == 1.0 + k * rate - d;
    assert y * (1.0 + t) == x * ((1.0 - rate) * (1.0 + t));
    ScaleMono(1.0 + k * rate - d, 1.0 + k * rate, x);
  }

  lemma Clear(x: real, n: nat, rate: real, cap: real)
    requires Recovering(x, n, rate, cap) && Enough(n, rate, cap)
    ensures x == 0.0
  {
  }

  lemma Less(x: real, y: real, n: nat, rate: real, cap: real)
    requires rate >= 0.0 && Recovering(x, n, rate, cap) && 0.0 <= y <= x
    ensures Recovering(y, n, rate, cap)
  {
    ScaleMono(y, x, 1.0 + n as real * rate);
  }

  lemma DoRecovers(c: Config, b: Board, op: Op, p: string, k: Category, n: nat)
    requires Usable(c) && p in b.scores && Quiet([op], p) && Recovering(Penalty(b.scores[p], k), n, c.decayRate, c.maxPenalty)
    ensures p in Do(c, b, op).scores
    ensures Recovering(Penalty(Do(c, b, op).scores[p], k), n + if op.Tick? then 1 else 0, c.decayRate, c.maxPenalty)
  {
    var x := Penalty(b.scores[p], k);
    assert x >= 0.0;
    assert Quiet([op], p) ==> [op][0] == op;
    hide Recovering, Sampled;
    if op.Tick? {
      TickRecovers(x, n, c.decayRate, c.maxPenalty);
    } else {
      if op.Record? {
        RecordedAt(c, b, op.event, p);
        if c.enabled && op.event.provider == p { SampledAt(c, b, op.event, p); }
      }
      hide Recorded;
      Less(x, Penalty(Do(c, b, op).scores[p], k), n, c.decayRate, c.maxPenalty);
    }
  }

  lemma {:induction false} RunRecovers(c: Config, b: Board, ops: seq<Op>, p: string, k: Category)
    requires Usable(c) && p in b.scores && Between(Penalty(b.scores[p], k), c.maxPenalty) && Quiet(ops, p)
    ensures p in Run(c, b, ops).scores
    ensures Recovering(Penalty(Run(c, b, ops).scores[p], k), Ticks(ops), c.decayRate, c.maxPenalty)
  {
    if ops != [] {
      var m := |ops| - 1;
      RunRecovers(c, b, ops[..m], p, k);
      DoRecovers(c, Run(c, b, ops[..m]), ops[m], p, k, Ticks(ops[..m]));
    }
  }

  /** Finite recovery: once ticks times rate reach a hundred times the cap, a provider that was not charged in the
      meantime carries no penalty but latency, whatever else went on. */
  lemma {:induction false} FullRecovery(c: Config, b: Board, ops: seq<Op>, p: string)
    requires Usable(c) && p in b.scores && InBounds(c, b.scores[p]) && Quiet(ops, p)
    requires Enough(Ticks(ops), c.decayRate, c.maxPenalty)
    ensures p in Run(c, b, ops).scores
    ensures var s := Run(c, b, ops).scores[p];
            && s.health == s.rateLimit == s.errors == 0.0
            && Effective(s) == NonNegative(s.base - s.latency)
  {
    hide Recovering, Enough;
    RunRecovers(c, b, ops, p, Health);
    RunRecovers(c, b, ops, p, RateLimiting);
    RunRecovers(c, b, ops, p, Errors);
    var s := Run(c, b, ops).scores[p];
    hide Run, Quiet;
    Clear(Penalty(s, Health), Ticks(ops), c.decayRate, c.maxPenalty);
    Clear(Penalty(s, RateLimiting), Ticks(ops), c.decayRate, c.maxPenalty);
    Clear(Penalty(s, Errors), Ticks(ops), c.decayRate, c.maxPenalty);
  }

  // ---- when recovery is possible at all ----

  function Fading(x: real, rate: real, n: nat): real {
    if n == 0 then x else Faded(Fading(x, rate, n - 1), rate)
  }

  ghost predicate ClearsBy(rate: real, cap: real, n: nat) {
    forall x :: Between(x, cap) ==> Fading(x, rate, n) == 0.0
  }

  lemma {:induction false} FadingRecovers(x: real, rate: real, cap: real, n: nat)
    requires 0.0 <= rate <= 1.0 && Between(x, cap)
    ensures Recovering(Fading(x, rate, n), n, rate, cap)
  {
    if n > 0 {
      FadingRecovers(x, rate, cap, n - 1);
      TickRecovers(Fading(x, rate, n - 1), n - 1, rate, cap);
    }
  }

  lemma {:induction false} NoDecay(x: real, n: nat)
    requires x >= 0.01
    ensures Fading(x, 0.0, n) == x
  {
    if n > 0 { NoDecay(x, n - 1); }
  }

  function Power(q: real, n: nat): real { if n == 0 then 1.0 else Power(q, n - 1) * q }

  /** A penalty still standing after `n` ticks has faded geometrically. */
  lemma {:induction false} FadingIsGeometric(x: real, rate: real, n: nat)
    requires 0.0 <= rate <= 1.0 && Fading(x, rate, n) > 0.0
    ensures Fading(x, rate, n) == x * Power(1.0 - rate, n)
  {
    hide Faded;
    if n > 0 {
      var y, q := Fading(x, rate, n - 1), 1.0 - rate;
      StillStanding(y, rate);
      FadingIsGeometric(x, rate, n - 1);
      Associate(x, Power(q, n - 1), q);
    }
  }

  lemma StillStanding(y: real, rate: real)
    requires 0.0 <= rate <= 1.0 && Faded(y, rate) > 0.0
    ensures y > 0.0 && Faded(y, rate) == y * (1.0 - rate)
  {
    if y <= 0.0 { ScaleMono(y, 0.0, 1.0 - rate); }
  }

  lemma Associate(a: real, b: real, c: real)
    ensures a * b * c == a * (b * c)
  {
  }

  /** Some number of ticks clears every penalty exactly when the rate is positive or the cap is below the threshold
      under which penalties are dropped. */
  lemma {:induction false} RecoversIff(rate: real, cap: real)
    requires 0.0 <= rate <= 1.0 && cap >= 0.0
    ensures (exists n: nat :: ClearsBy(rate, cap, n)) <==> rate > 0.0 || cap < 0.01
  {
    if rate > 0.0 {
      var n := EnoughTicks(rate, cap);
      EnoughClears(rate, cap, n);
    } else if cap < 0.01 {
      SmallCapClears(rate, cap);
    } else {
      forall n: nat ensures !ClearsBy(rate, cap, n) {
        NoDecay(cap, n);
        assert Between(cap, cap);
      }
    }
  }

  lemma EnoughTicks(rate: real, cap: real) returns (n: nat)
    requires rate > 0.0 && cap >= 0.0
    ensures Enough(n, rate, cap)
  {
    var q := 100.0 * cap / rate;
    assert q * rate == 100.0 * cap;
    assert q >= 0.0;
    n := q.Floor + 1;
    ScaleMono(q, n as real, rate);
  }

  lemma EnoughClears(rate: real, cap: real, n: nat)
    requires 0.0 <= rate <= 1.0 && Enough(n, rate, cap)
    ensures ClearsBy(rate, cap, n)
  {
    hide Enough, Recovering, Fading;
    forall x | Between(x, cap) ensures Fading(x, rate, n) == 0.0 {
      FadingRecovers(x, rate, cap, n);
      Clear(Fading(x, rate, n), n, rate, cap);
    }
  }

  lemma SmallCapClears(rate: real, cap: real)
    requires 0.0 <= rate <= 1.0 && cap < 0.01
    ensures ClearsBy(rate, cap, 1)
  {
    forall x | Between(x, cap) ensures Fading(x, rate, 1) == 0.0 { FadedShrinks(Fading(x, rate, 0), rate); }
  }

  // ---- a provider without peers ----

  lemma AloneIsNotSlow(c: Config, samples: Samples, p: string)
    requires c.slowThreshold >= 0.0 && samples.Keys == {p}
    ensures Compared(c, samples, p, 0.0) == 0.0
  {
    AloneIsAverage(samples, p);
    hide GlobalOf, Slowness, LatencyCharge;
    NoCharge(c);
  }

  lemma NoCharge(c: Config)
    requires c.slowThreshold >= 0.0
    ensures LatencyCharge(c, 0.0) == 0.0
  {
    var over := if 0.0 < c.slowThreshold then 0.0 else 0.0 - c.slowThreshold;
    assert over == 0.0;
    assert over * c.slowPerStdDev == 0.0;
  }

  ghost predicate OnlyTimes(ops: seq<Op>, p: string) {
    forall i :: 0 <= i < |ops| && ops[i].Record? && ops[i].event.responseTime > 0 ==> ops[i].event.provider == p
  }

  ghost predicate Unhurried(b: Board, p: string) {
    b.samples.Keys <= {p} && (p in b.scores ==> b.scores[p].latency == 0.0)
  }

  lemma RecordUnhurried(c: Config, b: Board, e: ScoreEvent, p: string)
    requires c.window >= 10 && c.slowThreshold >= 0.0 && Unhurried(b, p) && (e.responseTime > 0 ==> e.provider == p)
    ensures Unhurried(Recorded(c, b, e), p)
  {
    hide Slide, Compared;
    if c.enabled && e.provider in b.scores {
      OneUpdate(c, b, e);
      var samples := Sampled(c, b, e).samples;
      if e.responseTime > 0 {
        assert samples.Keys == {p};
        AloneIsNotSlow(c, samples, p);
      }
    }
  }

  /** With a nonnegative threshold, a provider that is the only one ever timed is never charged for being slow. */
  lemma {:induction false} LoneProviderNeverSlow(c: Config, b: Board, ops: seq<Op>, p: string)
    requires c.window >= 10 && c.slowThreshold >= 0.0 && Unhurried(b, p) && OnlyTimes(ops, p)
    ensures Unhurried(Run(c, b, ops), p)
  {
    hide Recorded;
    if ops != [] {
      var m := |ops| - 1;
      LoneProviderNeverSlow(c, b, ops[..m], p);
      if ops[m].Record? { RecordUnhurried(c, Run(c, b, ops[..m]), ops[m].event, p); }
    }
  }
}
