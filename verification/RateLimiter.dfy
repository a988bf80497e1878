/** The per-provider rate limiter: a sliding window of recorded requests, and a token
    bucket that is consulted only when the window is full. */
module RateLimiter {
  import opened Arithmetic
  import opened Common

  datatype RateLimitConfig = RateLimitConfig(enabled: bool, maxRequests: int, window: int, burstSize: int)

  /** With bursts on, the code divides by MaxRequests and by Window/MaxRequests. */
  predicate WellPosed(c: RateLimitConfig) {
    c.enabled && c.burstSize > 0 ==> c.maxRequests != 0 && Quot(c.window, c.maxRequests) != 0
  }

  /** The settings meant for bursts: a positive limit, and a window that spreads over it. */
  predicate Refills(c: RateLimitConfig) {
    c.enabled && c.burstSize > 0 ==> c.maxRequests > 0 && c.window >= c.maxRequests
  }

  datatype Limiter = Limiter(requestTimes: seq<int>, burstTokens: int, lastRefill: int)

  datatype Checked = Checked(limiter: Limiter, ok: bool)

  /** The times strictly after `cut`, in order. */
  function Recent(ts: seq<int>, cut: int): (r: seq<int>)
    ensures |r| <= |ts|
  {
    if ts == [] then []
    else
      var init := Recent(ts[..|ts| - 1], cut);
      if ts[|ts| - 1] > cut then init + [ts[|ts| - 1]] else init
  }

  function RefillInterval(c: RateLimitConfig): (r: int)
    requires c.maxRequests != 0
    ensures c.maxRequests > 0 && c.window >= c.maxRequests ==> r >= 1
  {
    Quot(c.window, c.maxRequests)
  }

  /** A token's interval is the longest of which MaxRequests fit into a window. */
  lemma IntervalShares(c: RateLimitConfig)
    requires c.maxRequests > 0 && c.window >= 0
    ensures RefillInterval(c) * c.maxRequests <= c.window < (RefillInterval(c) + 1) * c.maxRequests
  {
    DivMod(c.window, c.maxRequests);
    var q := RefillInterval(c);
    assert (q + 1) * c.maxRequests == q * c.maxRequests + c.maxRequests;
  }

  function Refilled(c: RateLimitConfig, l: Limiter, now: int): Limiter
    requires c.maxRequests != 0 && RefillInterval(c) != 0
  {
    var add := Quot(now - l.lastRefill, RefillInterval(c));
    if add > 0 then
      l.(burstTokens := if l.burstTokens + add < c.burstSize then l.burstTokens + add else c.burstSize,
         lastRefill := now)
    else l
  }

  /** The code does not come to a division by zero. */
  predicate Serves(c: RateLimitConfig, l: Limiter, now: int) {
    WellPosed(c) || |Recent(l.requestTimes, now - c.window)| < c.maxRequests
  }

  function Check(c: RateLimitConfig, l: Limiter, now: int): Checked
    requires Serves(c, l, now)
  {
    if !c.enabled then Checked(l, true)
    else
      var pruned := l.(requestTimes := Recent(l.requestTimes, now - c.window));
      if |pruned.requestTimes| < c.maxRequests then Checked(pruned, true)
      else if c.burstSize > 0 then
        var r := Refilled(c, pruned, now);
        if r.burstTokens > 0 then Checked(r.(burstTokens := r.burstTokens - 1), true) else Checked(r, false)
      else Checked(pruned, false)
  }

  function Record(c: RateLimitConfig, l: Limiter, now: int): Limiter {
    if c.enabled then l.(requestTimes := l.requestTimes + [now]) else l
  }

  function NewLimiter(burstSize: int, now: int): Limiter {
    Limiter([], burstSize, now)
  }

  class RateLimitState {
    var requestTimes: seq<int>
    var burstTokens: int
    var lastRefill: int

    function View(): Limiter
      reads this
    {
      Limiter(requestTimes, burstTokens, lastRefill)
    }

    constructor (burstSize: int, now: int)
      ensures View() == NewLimiter(burstSize, now)
    {
      requestTimes, burstTokens, lastRefill := [], burstSize, now;
    }

    method CanMakeRequest(c: RateLimitConfig, now: int) returns (ok: bool)
      requires Serves(c, View(), now)
      modifies this
      ensures Checked(View(), ok) == Check(c, old(View()), now)
    {
      if !c.enabled { return true; }
      var windowStart := now - c.window;
      var seen := requestTimes;
      var valid := [];
      for i := 0 to |seen|
        invariant valid == Recent(seen[..i], windowStart)
        invariant View() == old(View())
      {
        if seen[i] > windowStart { valid := valid + [seen[i]]; }
        TakeSnoc(seen, i);
      }
      assert seen[..|seen|] == seen;
      requestTimes := valid;
      if |requestTimes| < c.maxRequests { return true; }
      if c.burstSize > 0 {
        var refillInterval := Quot(c.window, c.maxRequests);
        var tokensToAdd := Quot(now - lastRefill, refillInterval);
        if tokensToAdd > 0 {
          burstTokens := if burstTokens + tokensToAdd < c.burstSize then burstTokens + tokensToAdd else c.burstSize;
          lastRefill := now;
        }
        if burstTokens > 0 {
          burstTokens := burstTokens - 1;
          return true;
        }
      }
      return false;
    }

    method RecordRequest(c: RateLimitConfig, now: int)
      modifies this
      ensures View() == Record(c, old(View()), now)
    {
      if !c.enabled { return; }
      requestTimes := requestTimes + [now];
    }
  }

  // ---- check-then-record runs ----

  /** An admitted request, and whether it used a burst token. */
  datatype Admission = Admission(time: int, burst: bool)

  datatype Trace = Trace(limiter: Limiter, admitted: seq<Admission>)

  /** One check, recorded at once when admitted. */
  function UseOnce(c: RateLimitConfig, before: Trace, now: int): Trace
    requires WellPosed(c)
  {
    var r := Check(c, before.limiter, now);
    if !r.ok then Trace(r.limiter, before.admitted)
    else
      var burst := c.enabled && |Recent(before.limiter.requestTimes, now - c.window)| >= c.maxRequests;
      Trace(Record(c, r.limiter, now), before.admitted + [Admission(now, burst)])
  }

  function Use(c: RateLimitConfig, start: int, times: seq<int>): Trace
    requires WellPosed(c)
  {
    if times == [] then Trace(NewLimiter(c.burstSize, start), [])
    else UseOnce(c, Use(c, start, times[..|times| - 1]), times[|times| - 1])
  }

  function Times(adm: seq<Admission>): (ts: seq<int>)
    ensures |ts| == |adm|
  {
    if adm == [] then [] else Times(adm[..|adm| - 1]) + [adm[|adm| - 1].time]
  }

  /** Admissions in the half-open window (lo, hi]. */
  function CountIn(adm: seq<Admission>, lo: int, hi: int): nat {
    if adm == [] then 0
    else CountIn(adm[..|adm| - 1], lo, hi) + (if lo < adm[|adm| - 1].time <= hi then 1 else 0)
  }

  /** Admissions after `lo` that did, or did not, use a token. */
  function CountKind(adm: seq<Admission>, lo: int, burst: bool): nat {
    if adm == [] then 0
    else CountKind(adm[..|adm| - 1], lo, burst)
         + (if lo < adm[|adm| - 1].time && adm[|adm| - 1].burst == burst then 1 else 0)
  }

  predicate Nondecreasing(start: int, times: seq<int>) {
    (forall i :: 0 <= i < |times| ==> start <= times[i])
    && forall i, j :: 0 <= i < j < |times| ==> times[i] <= times[j]
  }

  /** What a burst window can add: the bucket, a refill per interval, and one more. */
  function BurstAllowance(c: RateLimitConfig): (r: int)
    requires Refills(c) && c.enabled
    ensures r >= 0
  {
    if c.burstSize > 0 then
      assert c.window / RefillInterval(c) >= 0;
      c.burstSize + c.window / RefillInterval(c) + 1
    else 0
  }

  /** An empty window lets a request through. */
  predicate Admits(c: RateLimitConfig) { !c.enabled || c.maxRequests > 0 }

  /** A new limiter lets a request through, by the window or by a token. */
  predicate AdmitsOnce(c: RateLimitConfig) { Admits(c) || c.burstSize > 0 }

  /** Requests get through again and again: the window clears, or tokens come back. */
  predicate Sustains(c: RateLimitConfig)
    requires WellPosed(c)
  {
    Admits(c) || (c.burstSize > 0 && RefillInterval(c) > 0)
  }

  /** On a clock that does not go back nothing gets through any more. */
  predicate Starved(c: RateLimitConfig, l: Limiter) {
    && c.enabled && c.maxRequests <= 0
    && (c.burstSize <= 0 || (c.maxRequests != 0 && RefillInterval(c) < 0 && l.burstTokens <= 0))
  }

  // ---- lemmas ----

  /** Once everything recorded is older than the window, a request passes. */
  lemma {:induction false} QuietWindow(ts: seq<int>, cut: int)
    requires forall i :: 0 <= i < |ts| ==> ts[i] <= cut
    ensures Recent(ts, cut) == []
  {
    if ts != [] { QuietWindow(ts[..|ts| - 1], cut); }
  }

  lemma StarvedRefuses(c: RateLimitConfig, l: Limiter, now: int)
    requires WellPosed(c) && Starved(c, l) && l.lastRefill <= now
    ensures !Check(c, l, now).ok && Starved(c, Check(c, l, now).limiter) && Check(c, l, now).limiter.lastRefill == l.lastRefill
  {
    if c.burstSize > 0 { QuotSign(now - l.lastRefill, RefillInterval(c)); }
  }

  /** A limiter that is not starved admits every request from some time on. */
  lemma AdmitsLater(c: RateLimitConfig, l: Limiter, now: int)
    requires WellPosed(c) && !Starved(c, l) && now >= AdmittedAt(c, l)
    ensures Check(c, l, now).ok
  {
    if c.enabled {
      QuietWindow(l.requestTimes, now - c.window);
      if c.maxRequests <= 0 {
        var i := RefillInterval(c);
        if i > 0 {
          QuotAtLeast(now - l.lastRefill, Short(l), i);
        } else {
          QuotSign(now - l.lastRefill, i);
        }
      }
    }
  }

  /** Tokens that must come in before one is left to spend. */
  function Short(l: Limiter): nat { if l.burstTokens < 0 then 1 - l.burstTokens else 1 }

  function AdmittedAt(c: RateLimitConfig, l: Limiter): (t: int)
    ensures t >= l.lastRefill
    ensures c.maxRequests != 0 && RefillInterval(c) > 0 ==> t >= l.lastRefill + Short(l) * RefillInterval(c)
    ensures forall i :: 0 <= i < |l.requestTimes| ==> l.requestTimes[i] <= t - c.window
  {
    var floor := if c.maxRequests != 0 && RefillInterval(c) > 0 then l.lastRefill + Short(l) * RefillInterval(c)
                 else l.lastRefill;
    assert c.maxRequests != 0 && RefillInterval(c) > 0 ==> Short(l) * RefillInterval(c) >= 0;
    Latest(l.requestTimes, floor - c.window) + c.window
  }

  function Latest(ts: seq<int>, floor: int): (t: int)
    ensures t >= floor && forall i :: 0 <= i < |ts| ==> ts[i] <= t
  {
    if ts == [] then floor
    else
      var rest := Latest(ts[..|ts| - 1], floor);
      if ts[|ts| - 1] > rest then ts[|ts| - 1] else rest
  }

  lemma {:induction false} RecentTwice(ts: seq<int>, a: int, b: int)
    requires a <= b
    ensures Recent(Recent(ts, a), b) == Recent(ts, b)
  {
    if ts != [] {
      var init, last := ts[..|ts| - 1], ts[|ts| - 1];
      RecentTwice(init, a, b);
      if last > a { RecentSnoc(Recent(init, a), last, b); }
    }
  }

  lemma RecentSnoc(ts: seq<int>, x: int, cut: int)
    ensures Recent(ts + [x], cut) == if x > cut then Recent(ts, cut) + [x] else Recent(ts, cut)
  {
    assert (ts + [x])[..|ts|] == ts;
  }

  lemma {:induction false} RecentMonotone(ts: seq<int>, a: int, b: int)
    requires a <= b
    ensures |Recent(ts, b)| <= |Recent(ts, a)|
  {
    if ts != [] { RecentMonotone(ts[..|ts| - 1], a, b); }
  }

  /** What one more admission does to each way of counting them. */
  lemma AdmissionSnoc(adm: seq<Admission>, a: Admission, lo: int, hi: int)
    ensures Times(adm + [a]) == Times(adm) + [a.time]
    ensures CountIn(adm + [a], lo, hi) == CountIn(adm, lo, hi) + if lo < a.time <= hi then 1 else 0
    ensures forall b :: CountKind(adm + [a], lo, b) == CountKind(adm, lo, b) + if lo < a.time && a.burst == b then 1 else 0
  {
    assert (adm + [a])[..|adm|] == adm;
  }

  lemma {:induction false} CountsAgree(adm: seq<Admission>, lo: int)
    ensures CountKind(adm, lo, true) + CountKind(adm, lo, false) == |Recent(Times(adm), lo)|
  {
    if adm != [] {
      CountsAgree(adm[..|adm| - 1], lo);
      RecentSnoc(Times(adm[..|adm| - 1]), adm[|adm| - 1].time, lo);
    }
  }

  /** The limiter still knows every admission after `cut`. */
  ghost predicate Remembers(u: Trace, cut: int) {
    Recent(u.limiter.requestTimes, cut) == Recent(Times(u.admitted), cut)
  }

  lemma RemembersStep(c: RateLimitConfig, before: Trace, now: int, cut: int)
    requires WellPosed(c) && c.enabled && now - c.window <= cut && Remembers(before, cut)
    ensures Remembers(UseOnce(c, before, now), cut)
  {
    RecentTwice(before.limiter.requestTimes, now - c.window, cut);
    var r := Check(c, before.limiter, now);
    assert r.limiter.requestTimes == Recent(before.limiter.requestTimes, now - c.window);
    if r.ok {
      var u := UseOnce(c, before, now);
      var a := u.admitted[|before.admitted|];
      assert u.admitted == before.admitted + [a];
      RecentSnoc(r.limiter.requestTimes, now, cut);
      AdmissionSnoc(before.admitted, a, 0, 0);
      RecentSnoc(Times(before.admitted), now, cut);
    }
  }

  /** Pruning never forgets a request that a later check would still count. */
  lemma {:induction false} WindowIsHistory(c: RateLimitConfig, start: int, times: seq<int>, cut: int)
    requires WellPosed(c) && c.enabled && forall i :: 0 <= i < |times| ==> times[i] - c.window <= cut
    ensures Remembers(Use(c, start, times), cut)
  {
    if times != [] {
      var init := times[..|times| - 1];
      WindowIsHistory(c, start, init, cut);
      RemembersStep(c, Use(c, start, init), times[|times| - 1], cut);
    }
  }

  lemma PlainStep(before: Trace, now: int, window: int, max: int, lo: int)
    requires Remembers(before, now - window) && now <= lo + window
    requires |Recent(before.limiter.requestTimes, now - window)| < max
    ensures CountKind(before.admitted + [Admission(now, false)], lo, false) <= max
  {
    AdmissionSnoc(before.admitted, Admission(now, false), lo, 0);
    RecentMonotone(Times(before.admitted), now - window, lo);
    CountsAgree(before.admitted, lo);
  }

  /** A check either admits nothing or adds one admission, a token one exactly when the
      window is full. */
  lemma UseShape(c: RateLimitConfig, before: Trace, now: int)
    requires WellPosed(c) && c.enabled
    ensures var u := UseOnce(c, before, now);
            var full := |Recent(before.limiter.requestTimes, now - c.window)| >= c.maxRequests;
            u.admitted == before.admitted || u.admitted == before.admitted + [Admission(now, full)]
  {
  }

  /** At most MaxRequests of the admissions after `lo` came through the window, as long
      as the run stays within one window length of `lo`. */
  lemma {:induction false} PlainBound(c: RateLimitConfig, start: int, times: seq<int>, lo: int)
    requires WellPosed(c) && c.enabled && c.maxRequests > 0 && Nondecreasing(start, times)
    requires times != [] ==> times[|times| - 1] <= lo + c.window
    ensures CountKind(Use(c, start, times).admitted, lo, false) <= c.maxRequests
  {
    if times != [] {
      var init, now := times[..|times| - 1], times[|times| - 1];
      PlainBound(c, start, init, lo);
      WindowIsHistory(c, start, init, now - c.window);
      var before := Use(c, start, init);
      UseShape(c, before, now);
      if |Recent(before.limiter.requestTimes, now - c.window)| < c.maxRequests {
        PlainStep(before, now, c.window, c.maxRequests, lo);
      } else {
        AdmissionSnoc(before.admitted, Admission(now, true), lo, 0);
      }
    }
  }

  /** The bucket as an account: since some refill point `base`, tokens spent after `lo`
      plus tokens left never exceed the bucket size plus one token per elapsed interval `r`. */
  ghost predicate Account(size: int, r: int, tokens: int, refill: int, spent: nat, lo: int, base: int)
    requires r >= 1
  {
    && 0 <= tokens <= size
    && (spent > 0 ==> lo - r < base <= refill && spent + tokens <= size + (refill - base) / r)
  }

  ghost predicate InAccount(c: RateLimitConfig, u: Trace, lo: int, base: int)
    requires Refills(c) && c.enabled && c.burstSize > 0
  {
    Account(c.burstSize, RefillInterval(c), u.limiter.burstTokens, u.limiter.lastRefill,
            CountKind(u.admitted, lo, true), lo, base)
  }

  /** Whole intervals of length `r` in `z`. */
  function Whole(z: int, r: int): int
    requires r >= 1
  {
    z / r
  }

  /** A refill at `now`, then one token spent. */
  lemma SpendStep(size: int, r: int, tokens: int, refill: int, spent: nat, lo: int, base: int, now: int)
    returns (base': int)
    requires r >= 1 && size > 0 && refill <= now && Account(size, r, tokens, refill, spent, lo, base)
    ensures var add := Whole(now - refill, r);
            var tokens' := if add <= 0 then tokens else if tokens + add < size then tokens + add else size;
            var refill' := if add <= 0 then refill else now;
            && (add > 0 ==> tokens' > 0)
            && (tokens' > 0 ==> Account(size, r, tokens' - 1, refill', if now > lo then spent + 1 else spent, lo, base'))
            && (tokens' <= 0 ==> Account(size, r, tokens', refill', spent, lo, base'))
  {
    base' := base;
    var add := (now - refill) / r;
    if spent == 0 {
      base' := if add > 0 then now else refill;
      if now - refill >= r { FloorAtLeast(now - refill, 1, r); }
      assert 0 / r == 0;
    } else {
      FloorSum(refill - base, now - refill, r);
    }
  }

  /** A refill on a clock that has not gone back: one token per whole interval. */
  lemma RefillAdds(c: RateLimitConfig, l: Limiter, now: int)
    requires Refills(c) && c.enabled && c.burstSize > 0 && l.lastRefill <= now
    ensures var add := Whole(now - l.lastRefill, RefillInterval(c));
            Refilled(c, l, now) ==
              if add <= 0 then l
              else l.(burstTokens := if l.burstTokens + add < c.burstSize then l.burstTokens + add else c.burstSize,
                      lastRefill := now)
  {
  }

  /** What a check does to the bucket when the window is full, and when it is not. */
  lemma UseBucket(c: RateLimitConfig, before: Trace, now: int)
    requires Refills(c) && c.enabled && c.burstSize > 0
    ensures var u, l := UseOnce(c, before, now), before.limiter;
            var pruned := l.(requestTimes := Recent(l.requestTimes, now - c.window));
            var r := Refilled(c, pruned, now);
            if |pruned.requestTimes| < c.maxRequests then
              && u.admitted == before.admitted + [Admission(now, false)]
              && u.limiter.burstTokens == l.burstTokens && u.limiter.lastRefill == l.lastRefill
            else
              && u.limiter.lastRefill == r.lastRefill
              && u.limiter.burstTokens == (if r.burstTokens > 0 then r.burstTokens - 1 else r.burstTokens)
              && u.admitted == if r.burstTokens > 0 then before.admitted + [Admission(now, true)] else before.admitted
  {
    hide Refilled, Recent;
  }

  lemma AccountStep(c: RateLimitConfig, before: Trace, now: int, lo: int, base: int) returns (base': int)
    requires Refills(c) && c.enabled && c.burstSize > 0 && before.limiter.lastRefill <= now
    requires InAccount(c, before, lo, base)
    ensures InAccount(c, UseOnce(c, before, now), lo, base')
    ensures UseOnce(c, before, now).limiter.lastRefill <= now
  {
    hide Whole, Refilled, RefillInterval, Quot, Account, CountKind, Recent, UseOnce;
    var l := before.limiter;
    UseBucket(c, before, now);
    RefillAdds(c, l.(requestTimes := Recent(l.requestTimes, now - c.window)), now);
    AdmissionSnoc(before.admitted, Admission(now, true), lo, 0);
    AdmissionSnoc(before.admitted, Admission(now, false), lo, 0);
    base' := base;
    if |Recent(l.requestTimes, now - c.window)| >= c.maxRequests {
      base' := SpendStep(c.burstSize, RefillInterval(c), l.burstTokens, l.lastRefill,
                         CountKind(before.admitted, lo, true), lo, base, now);
    }
  }

  lemma {:induction false} BurstAccount(c: RateLimitConfig, start: int, times: seq<int>, lo: int) returns (base: int)
    requires Refills(c) && c.enabled && c.burstSize > 0 && Nondecreasing(start, times)
    ensures InAccount(c, Use(c, start, times), lo, base)
    ensures Use(c, start, times).limiter.lastRefill <= if times == [] then start else times[|times| - 1]
  {
    if times == [] {
      base := start;
    } else {
      var init := times[..|times| - 1];
      base := BurstAccount(c, start, init, lo);
      base := AccountStep(c, Use(c, start, init), times[|times| - 1], lo, base);
    }
  }

  /** Over a run that ends within one window length of `lo`, burst admissions after `lo`
      stay within the allowance. */
  lemma {:induction false} BurstBound(c: RateLimitConfig, start: int, times: seq<int>, lo: int)
    requires Refills(c) && c.enabled && Nondecreasing(start, times)
    requires times != [] ==> times[|times| - 1] <= lo + c.window
    ensures CountKind(Use(c, start, times).admitted, lo, true) <= BurstAllowance(c)
  {
    if c.burstSize <= 0 {
      NoBursts(c, start, times, lo);
    } else if times != [] {
      var base := BurstAccount(c, start, times, lo);
      var u := Use(c, start, times);
      WithinAllowance(c.burstSize, RefillInterval(c), u.limiter.burstTokens, u.limiter.lastRefill,
                      CountKind(u.admitted, lo, true), lo, base, c.window);
    }
  }

  lemma WithinAllowance(size: int, r: int, tokens: int, refill: int, spent: nat, lo: int, base: int, window: int)
    requires r >= 1 && size > 0 && window >= 0 && Account(size, r, tokens, refill, spent, lo, base)
    requires refill <= lo + window
    ensures spent <= size + window / r + 1
  {
    if spent > 0 { FloorWithin(refill - base, window, r); } else { FloorAtLeast(window, 0, r); }
  }

  lemma {:induction false} NoBursts(c: RateLimitConfig, start: int, times: seq<int>, lo: int)
    requires WellPosed(c) && c.enabled && c.burstSize <= 0
    ensures CountKind(Use(c, start, times).admitted, lo, true) == 0
  {
    if times != [] {
      NoBursts(c, start, times[..|times| - 1], lo);
      var before, u := Use(c, start, times[..|times| - 1]), Use(c, start, times);
      UseShape(c, before, times[|times| - 1]);
      AdmissionSnoc(before.admitted, Admission(times[|times| - 1], false), lo, 0);
    }
  }

  /** Counting in (lo, hi] is counting after `lo` in the part of the run up to `hi`. */
  lemma {:induction false} CountUpTo(c: RateLimitConfig, start: int, times: seq<int>, lo: int, hi: int, n: nat)
    requires WellPosed(c) && c.enabled && n <= |times|
    requires (forall i :: 0 <= i < n ==> times[i] <= hi) && (forall i :: n <= i < |times| ==> times[i] > hi)
    ensures CountIn(Use(c, start, times).admitted, lo, hi) == |Recent(Times(Use(c, start, times[..n]).admitted), lo)|
  {
    hide UseOnce;
    if times != [] {
      var init, now := times[..|times| - 1], times[|times| - 1];
      var before := Use(c, start, init);
      if n == |times| {
        CountUpTo(c, start, init, lo, hi, n - 1);
        assert times[..n] == times && init[..n - 1] == init;
      } else {
        CountUpTo(c, start, init, lo, hi, n);
        assert times[..n] == init[..n];
      }
      UseShape(c, before, now);
      var full := |Recent(before.limiter.requestTimes, now - c.window)| >= c.maxRequests;
      AdmissionSnoc(before.admitted, Admission(now, full), lo, hi);
      RecentSnoc(Times(before.admitted), now, lo);
    }
  }

  lemma {:induction false} SplitAt(start: int, times: seq<int>, hi: int) returns (n: nat)
    requires Nondecreasing(start, times)
    ensures n <= |times| && (forall i :: 0 <= i < n ==> times[i] <= hi) && (forall i :: n <= i < |times| ==> times[i] > hi)
  {
    n := 0;
    while n < |times| && times[n] <= hi
      invariant n <= |times| && forall i :: 0 <= i < n ==> times[i] <= hi
    {
      n := n + 1;
    }
  }

  /** Any window of length Window, anywhere in any run, holds at most MaxRequests plus the
      burst allowance; without bursts, at most MaxRequests. */
  lemma {:induction false} WindowBound(c: RateLimitConfig, start: int, times: seq<int>, t: int)
    requires Refills(c) && c.enabled && c.maxRequests > 0 && Nondecreasing(start, times)
    ensures CountIn(Use(c, start, times).admitted, t - c.window, t) <= c.maxRequests + BurstAllowance(c)
  {
    hide Use, Recent, CountKind, CountIn, Times;
    var lo := t - c.window;
    var n := SplitAt(start, times, t);
    CountUpTo(c, start, times, lo, t, n);
    var early := times[..n];
    CountsAgree(Use(c, start, early).admitted, lo);
    PlainBound(c, start, early, lo);
    BurstBound(c, start, early, lo);
  }

  // ---- exactly what is admitted ----

  /** A request within the window's room passes without a token, and no other does: room is
      measured by the admissions of the last window length. */
  lemma {:induction false} PlainAdmittedIff(c: RateLimitConfig, start: int, times: seq<int>, now: int)
    requires WellPosed(c) && c.enabled && Nondecreasing(start, times + [now])
    ensures var u, v := Use(c, start, times), UseOnce(c, Use(c, start, times), now);
            v.admitted == u.admitted + [Admission(now, false)] <==> CountIn(u.admitted, now - c.window, now) < c.maxRequests
  {
    hide Use, Recent, CountIn, Times, UseOnce;
    var u := Use(c, start, times);
    var lo := now - c.window;
    AllBefore(start, times, now);
    WindowIsHistory(c, start, times, lo);
    CountUpTo(c, start, times, lo, now, |times|);
    assert times[..|times|] == times;
    PlainChoice(c, u, now);
  }

  lemma AllBefore(start: int, times: seq<int>, now: int)
    requires Nondecreasing(start, times + [now])
    ensures forall i :: 0 <= i < |times| ==> times[i] <= now
  {
    forall i | 0 <= i < |times| ensures times[i] <= now { assert (times + [now])[i] <= (times + [now])[|times|]; }
  }

  lemma PlainChoice(c: RateLimitConfig, u: Trace, now: int)
    requires WellPosed(c) && c.enabled
    ensures var room := |Recent(u.limiter.requestTimes, now - c.window)| < c.maxRequests;
            UseOnce(c, u, now).admitted == u.admitted + [Admission(now, false)] <==> room
  {
    hide Recent, Refilled;
    var v := UseOnce(c, u, now);
    assert v.admitted == u.admitted + [Admission(now, false)] ==> v.admitted[|u.admitted|] == Admission(now, false);
    assert v.admitted == u.admitted + [Admission(now, true)] ==> v.admitted[|u.admitted|] == Admission(now, true);
  }

  /** With the window full, a request passes exactly when a token is left or a refill interval
      has gone by; a full interval brings at least one token and the bucket never overflows. */
  lemma BurstAdmittedIff(c: RateLimitConfig, l: Limiter, now: int)
    requires Refills(c) && c.enabled && c.burstSize > 0 && l.lastRefill <= now && 0 <= l.burstTokens <= c.burstSize
    requires |Recent(l.requestTimes, now - c.window)| >= c.maxRequests
    ensures var r := Check(c, l, now);
            && (r.ok <==> l.burstTokens > 0 || now - l.lastRefill >= RefillInterval(c))
            && 0 <= r.limiter.burstTokens < c.burstSize
            && (now - l.lastRefill < RefillInterval(c) && r.ok ==> r.limiter.burstTokens == l.burstTokens - 1)
            && (now - l.lastRefill >= RefillInterval(c) ==> r.limiter.burstTokens >= l.burstTokens || l.burstTokens == c.burstSize)
            && (now - l.lastRefill >= c.burstSize * RefillInterval(c) ==> r.limiter.burstTokens == c.burstSize - 1)
  {
    hide Recent;
    var i, z := RefillInterval(c), now - l.lastRefill;
    if z >= i { QuotAtLeast(z, 1, i); } else { DivUnique(z, 0, z, i); }
    if z >= c.burstSize * i { QuotAtLeast(z, c.burstSize, i); MulMono(1, c.burstSize, i); }
  }

  function Again(n: nat, t: int): (ts: seq<int>)
    ensures |ts| == n && forall i :: 0 <= i < n ==> ts[i] == t
  {
    seq(n, _ => t)
  }

  function AtMost(n: nat, cap: int): nat { if n <= cap then n else if cap < 0 then 0 else cap }

  function Burst(c: RateLimitConfig): nat { if c.burstSize > 0 then c.burstSize else 0 }

  /** `k` requests admitted at `start`, by the window first and then by tokens. */
  ghost predicate Served(c: RateLimitConfig, u: Trace, start: int, k: nat) {
    && |u.admitted| == k && u.limiter.requestTimes == Again(k, start) && u.limiter.lastRefill == start
    && (c.burstSize > 0 ==> u.limiter.burstTokens == c.burstSize - if k > c.maxRequests then k - c.maxRequests else 0)
  }

  lemma NoTimeNoRefill(c: RateLimitConfig, l: Limiter)
    requires c.maxRequests != 0 && RefillInterval(c) > 0
    ensures Refilled(c, l, l.lastRefill) == l
  {
    DivUnique(0, 0, 0, RefillInterval(c));
  }

  lemma ServedStep(c: RateLimitConfig, u: Trace, start: int, k: nat)
    requires Refills(c) && c.enabled && c.maxRequests > 0 && c.window > 0 && Served(c, u, start, k)
    requires k <= c.maxRequests + Burst(c)
    ensures Served(c, UseOnce(c, u, start), start, if k < c.maxRequests + Burst(c) then k + 1 else k)
  {
    AllRecent(u.limiter.requestTimes, start - c.window);
    if c.burstSize > 0 { NoTimeNoRefill(c, u.limiter); }
    assert Again(k, start) + [start] == Again(k + 1, start);
    hide Recent, Refilled, RefillInterval, Again;
  }

  /** Of any number of requests at one instant on a new limiter, exactly MaxRequests pass by the
      window and BurstSize more by tokens. */
  lemma {:induction false} SurgeIsServedExactly(c: RateLimitConfig, start: int, n: nat)
    requires Refills(c) && c.enabled && c.maxRequests > 0 && c.window > 0
    ensures Served(c, Use(c, start, Again(n, start)), start, AtMost(n, c.maxRequests + Burst(c)))
  {
    hide Served, UseOnce;
    if n == 0 {
      ServedNone(c, start);
    } else {
      SurgeIsServedExactly(c, start, n - 1);
      assert Again(n, start)[..n - 1] == Again(n - 1, start);
      ServedStep(c, Use(c, start, Again(n - 1, start)), start, AtMost(n - 1, c.maxRequests + Burst(c)));
    }
  }

  lemma ServedNone(c: RateLimitConfig, start: int)
    requires WellPosed(c) && c.maxRequests >= 0
    ensures Served(c, Use(c, start, Again(0, start)), start, 0)
  {
  }

  lemma {:induction false} AllRecent(ts: seq<int>, cut: int)
    requires forall i :: 0 <= i < |ts| ==> ts[i] > cut
    ensures Recent(ts, cut) == ts
  {
    if ts != [] {
      AllRecent(ts[..|ts| - 1], cut);
      assert ts == ts[..|ts| - 1] + [ts[|ts| - 1]];
    }
  }
}
