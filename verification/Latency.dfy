/** Latency statistics: windows of samples per provider, a dirty-flag cache of the global
    statistics, an in-place bubble sort, and interpolated percentiles. Durations are
    integers; the source's float64 arithmetic is done over the reals. */
module Latency {
  import opened Arithmetic
  import opened Common

  // ---- sorting ----

  ghost predicate Sorted(s: seq<int>) {
    forall i, j :: 0 <= i < j < |s| ==> s[i] <= s[j]
  }

  /** The sorted rearrangement, as a reference: insertion from the left. */
  function Insert(s: seq<int>, x: int): (r: seq<int>)
    ensures |r| == |s| + 1
  {
    if s == [] || s[|s| - 1] <= x then s + [x] else Insert(s[..|s| - 1], x) + [s[|s| - 1]]
  }

  function Sort(s: seq<int>): (r: seq<int>)
    ensures |r| == |s|
  {
    if s == [] then [] else Insert(Sort(s[..|s| - 1]), s[|s| - 1])
  }

  lemma {:induction false} InsertKeepsAll(s: seq<int>, x: int)
    ensures multiset(Insert(s, x)) == multiset(s) + multiset{x}
  {
    if s != [] {
      InsertKeepsAll(s[..|s| - 1], x);
      assert s == s[..|s| - 1] + [s[|s| - 1]];
    }
  }

  lemma {:induction false} InsertSorted(s: seq<int>, x: int)
    requires Sorted(s)
    ensures Sorted(Insert(s, x))
    ensures forall i :: 0 <= i < |s| + 1 ==> Insert(s, x)[i] == x || (s != [] && Insert(s, x)[i] <= s[|s| - 1])
  {
    if s != [] && s[|s| - 1] > x { InsertSorted(s[..|s| - 1], x); }
  }

  lemma {:induction false} SortCorrect(s: seq<int>)
    ensures Sorted(Sort(s)) && multiset(Sort(s)) == multiset(s)
  {
    if s != [] {
      var init := s[..|s| - 1];
      SortCorrect(init);
      InsertSorted(Sort(init), s[|s| - 1]);
      InsertKeepsAll(Sort(init), s[|s| - 1]);
      assert s == init + [s[|s| - 1]];
    }
  }

  /** There is only one sorted arrangement. */
  lemma {:induction false} SortedUnique(a: seq<int>, b: seq<int>)
    requires Sorted(a) && Sorted(b) && multiset(a) == multiset(b)
    ensures a == b
  {
    assert |multiset(a)| == |a| && |multiset(b)| == |b|;
    if a != [] {
      var m := |a| - 1;
      LastIsLargest(a, b);
      LastIsLargest(b, a);
      PrefixesAgree(a, b);
      SortedUnique(a[..m], b[..m]);
      assert a == a[..m] + [a[m]] && b == b[..m] + [b[m]];
    }
  }

  lemma LastIsLargest(a: seq<int>, b: seq<int>)
    requires Sorted(a) && a != [] && b != [] && multiset(a) == multiset(b)
    ensures b[|b| - 1] <= a[|a| - 1]
  {
    assert b[|b| - 1] in multiset(b);
    assert b[|b| - 1] in a;
  }

  lemma LastOut(a: seq<int>)
    requires a != []
    ensures multiset(a[..|a| - 1]) == multiset(a) - multiset{a[|a| - 1]}
  {
    assert a == a[..|a| - 1] + [a[|a| - 1]];
  }

  lemma PrefixesAgree(a: seq<int>, b: seq<int>)
    requires a != [] && b != [] && multiset(a) == multiset(b) && a[|a| - 1] == b[|b| - 1]
    ensures multiset(a[..|a| - 1]) == multiset(b[..|b| - 1])
  {
    LastOut(a);
    LastOut(b);
  }

  /** Everything from position `n` on is sorted and no smaller than what comes before. */
  ghost predicate Topped(a: array<int>, n: int)
    reads a
  {
    forall i, j :: 0 <= i < j < a.Length && n <= j ==> a[i] <= a[j]
  }

  /** One pass: the largest of the first `n` elements rises to position n-1. */
  method BubblePass(a: array<int>, n: nat)
    requires 1 <= n <= a.Length && Topped(a, n)
    modifies a
    ensures Topped(a, n - 1) && multiset(a[..]) == old(multiset(a[..]))
  {
    var j := 0;
    while j < n - 1
      invariant 0 <= j <= n - 1 && Topped(a, n) && multiset(a[..]) == old(multiset(a[..]))
      invariant forall k :: 0 <= k < j ==> a[k] <= a[j]
    {
      if a[j] > a[j + 1] { Swap(a, j, j + 1); }
      j := j + 1;
    }
  }

  method SortDurations(a: array<int>)
    modifies a
    ensures a[..] == Sort(old(a[..]))
  {
    ghost var before := a[..];
    var n := a.Length;
    var i := 0;
    while i < n - 1
      invariant 0 <= i && (n > 0 ==> i < n) && Topped(a, n - i) && multiset(a[..]) == multiset(before)
    {
      BubblePass(a, n - i);
      i := i + 1;
    }
    SortCorrect(before);
    SortedUnique(a[..], Sort(before));
  }

  // ---- statistics ----

  datatype Stats = Stats(mean: int, stdDev: int, min: int, max: int, p50: int, p75: int, p90: int, p95: int, p99: int,
                         sampleCount: nat)

  const NoStats := Stats(0, 0, 0, 0, 0, 0, 0, 0, 0, 0)

  function Sum(s: seq<int>): int {
    if s == [] then 0 else Sum(s[..|s| - 1]) + s[|s| - 1]
  }

  /** Squared deviations from `m`, added up. */
  function Deviation(s: seq<int>, m: int): nat {
    if s == [] then 0 else
      var d := s[|s| - 1] - m;
      assert d * d >= 0;
      Deviation(s[..|s| - 1], m) + d * d
  }

  /** Conversion of a float to an integer duration. */
  function Trunc(x: real): (r: int)
    ensures if x >= 0.0 then 0.0 <= r as real <= x < r as real + 1.0 else r as real - 1.0 < x <= r as real <= 0.0
  {
    if x >= 0.0 then x.Floor else -((-x).Floor)
  }

  /** The square root of a rounded-down variance, rounded down. */
  function RootFloor(n: nat): (r: nat)
    ensures r * r <= n < (r + 1) * (r + 1)
  {
    if n == 0 then 0
    else
      var r := RootFloor(n - 1);
      if (r + 1) * (r + 1) <= n then r + 1 else r
  }

  /** The position of the p-th percentile among `n + 1` sorted samples. */
  function Rank(p: int, n: nat): real { p as real / 100.0 * n as real }

  /** The point a fraction `w` of the way from `lo` to `hi`. */
  function Interpolate(lo: int, hi: int, w: real): real { lo as real + w * (hi as real - lo as real) }

  function AtRank(s: seq<int>, rank: real): int
    requires s != [] && 0.0 <= rank <= (|s| - 1) as real
  {
    var lower := rank.Floor;
    if lower as real == rank then s[lower]
    else Trunc(Interpolate(s[lower], s[lower + 1], rank - lower as real))
  }

  function Percentile(s: seq<int>, p: int): int {
    if s == [] then 0
    else if p <= 0 then s[0]
    else if p >= 100 then s[|s| - 1]
    else
      RankRange(p, |s| - 1);
      AtRank(s, Rank(p, |s| - 1))
  }

  function Calc(samples: seq<int>): Stats {
    if samples == [] then NoStats
    else
      var n := |samples|;
      var s := Sort(samples);
      var mean := Quot(Sum(samples), n);
      Stats(mean, RootFloor(Deviation(samples, mean) / n), s[0], s[n - 1],
            Percentile(s, 50), Percentile(s, 75), Percentile(s, 90), Percentile(s, 95), Percentile(s, 99), n)
  }

  method SortedCopy(samples: seq<int>) returns (s: seq<int>)
    ensures s == Sort(samples)
  {
    var a := new int[|samples|](i requires 0 <= i < |samples| => samples[i]);
    assert a[..] == samples;
    SortDurations(a);
    s := a[..];
  }

  method Total(samples: seq<int>) returns (sum: int)
    ensures sum == Sum(samples)
  {
    sum := 0;
    for i := 0 to |samples|
      invariant sum == Sum(samples[..i])
    {
      TakeSnoc(samples, i);
      sum := sum + samples[i];
    }
    assert samples[..|samples|] == samples;
  }

  method TotalDeviation(samples: seq<int>, mean: int) returns (d: nat)
    ensures d == Deviation(samples, mean)
  {
    d := 0;
    for i := 0 to |samples|
      invariant d == Deviation(samples[..i], mean)
    {
      TakeSnoc(samples, i);
      var diff := samples[i] - mean;
      assert diff * diff >= 0;
      d := d + diff * diff;
    }
    assert samples[..|samples|] == samples;
  }

  method CalculateStats(samples: seq<int>) returns (r: Stats)
    ensures r == Calc(samples)
  {
    if |samples| == 0 { return NoStats; }
    var s := SortedCopy(samples);
    var sum := Total(samples);
    var mean := Quot(sum, |samples|);
    var deviation := TotalDeviation(samples, mean);
    r := Stats(mean, RootFloor(deviation / |samples|), s[0], s[|s| - 1], Percentile(s, 50), Percentile(s, 75),
               Percentile(s, 90), Percentile(s, 95), Percentile(s, 99), |samples|);
  }

  // ---- statistics depend only on the multiset ----

  lemma {:induction false} InsertSums(s: seq<int>, x: int, m: int)
    ensures Sum(Insert(s, x)) == Sum(s) + x
    ensures Deviation(Insert(s, x), m) == Deviation(s, m) + (x - m) * (x - m)
  {
    if s == [] || s[|s| - 1] <= x {
      assert (s + [x])[..|s|] == s;
    } else {
      InsertSums(s[..|s| - 1], x, m);
      var i := Insert(s[..|s| - 1], x);
      assert (i + [s[|s| - 1]])[..|i|] == i;
    }
  }

  lemma {:induction false} SortSums(s: seq<int>, m: int)
    ensures Sum(Sort(s)) == Sum(s) && Deviation(Sort(s), m) == Deviation(s, m)
  {
    if s != [] {
      SortSums(s[..|s| - 1], m);
      InsertSums(Sort(s[..|s| - 1]), s[|s| - 1], m);
    }
  }

  /** Reordering samples changes no statistic. */
  lemma {:induction false} StatsOfMultiset(a: seq<int>, b: seq<int>)
    requires multiset(a) == multiset(b)
    ensures Calc(a) == Calc(b)
  {
    SortCorrect(a);
    SortCorrect(b);
    SortedUnique(Sort(a), Sort(b));
    SortSums(a, 0);
    SortSums(b, 0);
    if a != [] {
      SortSums(a, Quot(Sum(a), |a|));
      SortSums(b, Quot(Sum(a), |a|));
    }
  }

  // ---- order of the statistics ----

  lemma RealMono(w: real, v: real, d: real)
    requires w <= v && d >= 0.0
    ensures w * d <= v * d
  {
  }

  lemma RankRange(p: int, n: nat)
    requires 0 < p < 100
    ensures 0.0 <= Rank(p, n) <= n as real
  {
    RealMono(0.0, p as real / 100.0, n as real);
    RealMono(p as real / 100.0, 1.0, n as real);
  }

  lemma RankMonotone(p: int, q: int, n: nat)
    requires p <= q
    ensures Rank(p, n) <= Rank(q, n)
  {
    RealMono(p as real / 100.0, q as real / 100.0, n as real);
  }

  lemma InterpolateBetween(lo: int, hi: int, w: real)
    requires lo <= hi && 0.0 <= w <= 1.0
    ensures lo as real <= Interpolate(lo, hi, w) <= hi as real
  {
    InterpolateMonotone(lo, hi, 0.0, w);
    InterpolateMonotone(lo, hi, w, 1.0);
  }

  lemma InterpolateMonotone(lo: int, hi: int, w: real, v: real)
    requires lo <= hi && w <= v
    ensures Interpolate(lo, hi, w) <= Interpolate(lo, hi, v)
  {
    var d := hi as real - lo as real;
    assert Interpolate(lo, hi, v) - Interpolate(lo, hi, w) == (v - w) * d;
    RealMono(0.0, v - w, d);
  }

  lemma TruncMonotone(x: real, y: real)
    requires x <= y
    ensures Trunc(x) <= Trunc(y)
  {
  }

  /** A value at a rank lies between the two samples around it. */
  lemma Segment(s: seq<int>, rank: real)
    requires Sorted(s) && s != [] && 0.0 <= rank <= (|s| - 1) as real
    ensures s[rank.Floor] <= AtRank(s, rank)
    ensures AtRank(s, rank) <= if rank.Floor + 1 < |s| then s[rank.Floor + 1] else s[rank.Floor]
  {
    var l := rank.Floor;
    if l as real != rank {
      var x := Interpolate(s[l], s[l + 1], rank - l as real);
      InterpolateBetween(s[l], s[l + 1], rank - l as real);
      hide Interpolate;
      TruncMonotone(s[l] as real, x);
      TruncMonotone(x, s[l + 1] as real);
    }
  }

  lemma AtRankMonotone(s: seq<int>, a: real, b: real)
    requires Sorted(s) && s != [] && 0.0 <= a <= b <= (|s| - 1) as real
    ensures AtRank(s, a) <= AtRank(s, b)
  {
    Segment(s, a);
    Segment(s, b);
    var l := a.Floor;
    if l == b.Floor && l as real != a {
      InterpolateMonotone(s[l], s[l + 1], a - l as real, b - l as real);
      hide Interpolate;
      var x, y := Interpolate(s[l], s[l + 1], a - l as real), Interpolate(s[l], s[l + 1], b - l as real);
      TruncMonotone(x, y);
    }
  }

  /** Percentiles grow with p and stay within the samples. */
  lemma PercentileMonotone(s: seq<int>, p: int, q: int)
    requires Sorted(s) && s != [] && p <= q
    ensures s[0] <= Percentile(s, p) <= Percentile(s, q) <= s[|s| - 1]
  {
    hide Rank, AtRank;
    var n := |s| - 1;
    if 0 < p < 100 { RankRange(p, n); Segment(s, Rank(p, n)); }
    if 0 < q < 100 { RankRange(q, n); Segment(s, Rank(q, n)); }
    if 0 < p && q < 100 {
      RankMonotone(p, q, n);
      AtRankMonotone(s, Rank(p, n), Rank(q, n));
    }
  }

  lemma OneMore(x: int, n: nat)
    ensures x * (n + 1) == x * n + x
  {
  }

  lemma {:induction false} SumBounds(s: seq<int>, lo: int, hi: int)
    requires forall i :: 0 <= i < |s| ==> lo <= s[i] <= hi
    ensures lo * |s| <= Sum(s) <= hi * |s|
  {
    if s != [] {
      SumBounds(s[..|s| - 1], lo, hi);
      OneMore(lo, |s| - 1);
      OneMore(hi, |s| - 1);
    }
  }

  lemma QuotBetween(x: int, n: nat, lo: int, hi: int)
    requires n > 0 && lo * n <= x <= hi * n
    ensures lo <= Quot(x, n) <= hi
  {
    if x >= 0 {
      FloorAtLeast(x, lo, n);
      FloorMonotone(x, hi * n, n);
      DivUnique(hi * n, hi, 0, n);
    } else {
      assert -hi * n == -(hi * n) && -lo * n == -(lo * n);
      FloorAtLeast(-x, -hi, n);
      FloorMonotone(-x, -lo * n, n);
      DivUnique(-lo * n, -lo, 0, n);
    }
  }

  /** For any samples at all, the statistics are in order. */
  lemma StatsOrdered(samples: seq<int>)
    requires samples != []
    ensures var r := Calc(samples);
            r.min <= r.p50 <= r.p75 <= r.p90 <= r.p95 <= r.p99 <= r.max && r.min <= r.mean <= r.max
  {
    var s := Sort(samples);
    SortCorrect(samples);
    PercentileMonotone(s, 50, 75);
    PercentileMonotone(s, 75, 90);
    PercentileMonotone(s, 90, 95);
    PercentileMonotone(s, 95, 99);
    SortSums(samples, 0);
    SumBounds(s, s[0], s[|s| - 1]);
    QuotBetween(Sum(samples), |samples|, s[0], s[|s| - 1]);
  }

  /** Rounding the variance down before the root loses nothing: r is the integer part of the
      square root of the exact variance d/n, here with n multiplied out. */
  lemma {:induction false} StdDevIsRoot(d: nat, n: nat)
    requires n > 0
    ensures var r := RootFloor(d / n); r * r * n <= d < (r + 1) * (r + 1) * n
  {
    var q := d / n;
    var r := RootFloor(q);
    var lo, hi := r * r, (r + 1) * (r + 1);
    Sandwich(d, n, q, lo, hi);
  }

  lemma Sandwich(d: nat, n: nat, q: nat, lo: nat, hi: nat)
    requires n > 0 && q == d / n && lo <= q < hi
    ensures lo * n <= d < hi * n
  {
    DivMod(d, n);
    MulMono(lo, q, n);
    MulMono(q + 1, hi, n);
    assert (q + 1) * n == q * n + n;
  }

  // ---- what each statistic is ----

  /** Totals are additive, so they are the totals of the samples one by one. */
  lemma {:induction false} TotalsAdd(a: seq<int>, b: seq<int>, x: int, m: int)
    ensures Sum(a + b) == Sum(a) + Sum(b) && Sum([x]) == x && Sum([]) == 0
    ensures Deviation(a + b, m) == Deviation(a, m) + Deviation(b, m) && Deviation([x], m) == (x - m) * (x - m)
    ensures Deviation([], m) == 0
  {
    assert [x][..0] == [];
    if b == [] {
      assert a + b == a;
    } else {
      var k := |b| - 1;
      TotalsAdd(a, b[..k], x, m);
      assert (a + b)[..|a + b| - 1] == a + b[..k] && (a + b)[|a + b| - 1] == b[k];
    }
  }

  lemma RankIs(p: int, n: nat)
    requires 0 < p < 100
    ensures Rank(p, n) == (p * n) as real / 100.0
    ensures Rank(p, n) == (p * n / 100) as real + (p * n % 100) as real / 100.0
    ensures Rank(p, n).Floor == p * n / 100
  {
    var m := p * n;
    assert p as real * n as real == m as real;
    assert Rank(p, n) == p as real * n as real / 100.0;
    assert m as real == (m / 100) as real * 100.0 + (m % 100) as real;
  }

  /** Where a percentile lies: at position p(n-1)/100 of the sorted samples, and between two
      positions at the matching fraction of the gap, rounded down. */
  lemma {:induction false} PercentilePosition(s: seq<int>, p: int)
    requires Sorted(s) && s != [] && 0 < p < 100
    ensures var m := p * (|s| - 1);
            var k, r, v := m / 100, m % 100, Percentile(s, p);
            && k < |s| && (r == 0 ==> v == s[k])
            && (r > 0 ==> k + 1 < |s| && s[k] <= v <= s[k + 1])
            && (r > 0 && s[k] >= 0 ==> 100 * v <= 100 * s[k] + r * (s[k + 1] - s[k]) < 100 * v + 100)
  {
    var n := |s| - 1;
    var m := p * n;
    RankRange(p, n);
    RankIs(p, n);
    Segment(s, Rank(p, n));
    AtPosition(s, m / 100, m % 100, Rank(p, n));
    hide Sorted, Rank, AtRank;
  }

  lemma AtPosition(s: seq<int>, k: nat, r: nat, rank: real)
    requires s != [] && Sorted(s) && r < 100 && rank == k as real + r as real / 100.0 && rank <= (|s| - 1) as real
    ensures k < |s| && (r == 0 ==> AtRank(s, rank) == s[k])
    ensures r > 0 ==> k + 1 < |s|
    ensures r > 0 && s[k] >= 0 ==>
              100 * AtRank(s, rank) <= 100 * s[k] + r * (s[k + 1] - s[k]) < 100 * AtRank(s, rank) + 100
  {
    assert rank.Floor == k;
    if r > 0 && s[k] >= 0 {
      var gap := s[k + 1] - s[k];
      assert rank - k as real == r as real / 100.0;
      assert s[k + 1] as real - s[k] as real == gap as real;
      hide Sorted, Trunc;
      InHundredths(s[k], r, gap, AtRank(s, rank));
    }
  }

  lemma InHundredths(lo: int, r: int, gap: int, v: int)
    requires lo >= 0 && 0 < r < 100 && gap >= 0 && v == Trunc(lo as real + r as real / 100.0 * gap as real)
    ensures 100 * v <= 100 * lo + r * gap < 100 * v + 100
  {
    var y := lo as real + r as real / 100.0 * gap as real;
    assert r as real * gap as real == (r * gap) as real;
    assert y == lo as real + (r * gap) as real / 100.0;
    assert r * gap >= 0;
  }

  function Mean(s: seq<int>): int
    requires s != []
  {
    Quot(Sum(s), |s|)
  }

  /** The statistics in terms of the samples alone, put in order in any way: extremes, count, a mean
      that is off by less than one, the integer root of the mean squared deviation, and each
      percentile at its position. */
  lemma {:induction false} StatsMeaning(samples: seq<int>, s: seq<int>)
    requires samples != [] && Sorted(s) && multiset(s) == multiset(samples)
    ensures var r, n := Calc(samples), |samples|;
            && |s| == n && r.sampleCount == n && r.min == s[0] && r.max == s[n - 1] && r.mean == Mean(samples)
            && r.stdDev >= 0
            && r.stdDev * r.stdDev * n <= Deviation(samples, r.mean) < (r.stdDev + 1) * (r.stdDev + 1) * n
            && r.p50 == Percentile(s, 50) && r.p75 == Percentile(s, 75) && r.p90 == Percentile(s, 90)
            && r.p95 == Percentile(s, 95) && r.p99 == Percentile(s, 99)
    ensures Sum(samples) >= 0 ==> Mean(samples) * |samples| <= Sum(samples) < (Mean(samples) + 1) * |samples|
  {
    hide Sort, Percentile, Sum, Deviation, RootFloor, Sorted, Mean;
    SortCorrect(samples);
    SortedUnique(Sort(samples), s);
    assert |multiset(s)| == |s| && |multiset(samples)| == |samples|;
    CalcParts(samples);
    StdDevIsRoot(Deviation(samples, Mean(samples)), |samples|);
    MeanMeaning(samples);
    hide Calc;
  }

  lemma CalcParts(samples: seq<int>)
    requires samples != []
    ensures var r := Calc(samples);
            r.mean == Mean(samples) && r.stdDev == RootFloor(Deviation(samples, Mean(samples)) / |samples|)
  {
    hide Sort, Percentile, Sum, Deviation, RootFloor;
  }

  lemma MeanMeaning(s: seq<int>)
    requires s != []
    ensures Sum(s) >= 0 ==> Mean(s) * |s| <= Sum(s) < (Mean(s) + 1) * |s|
  {
    hide Sum;
    DivMod(Sum(s), |s|);
    OneMore(|s|, if Mean(s) >= 0 then Mean(s) else 0);
  }

  // ---- the tracker ----

  type Samples = map<string, seq<int>>

  predicate Distinct(order: seq<string>) {
    forall i, j :: 0 <= i < j < |order| ==> order[i] != order[j]
  }

  ghost predicate SameNames(a: seq<string>, b: seq<string>) {
    forall n :: n in a <==> n in b
  }

  /** The providers of `m`, each once, in some order. */
  ghost predicate Enumerates(order: seq<string>, m: Samples) {
    Distinct(order) && forall n :: n in order <==> n in m
  }

  function Without(b: seq<string>, i: nat): (r: seq<string>)
    requires i < |b|
    ensures |r| == |b| - 1 && forall j :: 0 <= j < |r| ==> r[j] == b[if j < i then j else j + 1]
  {
    b[..i] + b[i + 1..]
  }

  /** All samples, provider by provider in the given order. */
  function Gather(m: Samples, order: seq<string>): seq<int> {
    if order == [] then []
    else
      var last := order[|order| - 1];
      Gather(m, order[..|order| - 1]) + if last in m then m[last] else []
  }

  lemma {:induction false} GatherSplit(m: Samples, a: seq<string>, b: seq<string>)
    ensures Gather(m, a + b) == Gather(m, a) + Gather(m, b)
  {
    if b == [] {
      assert a + b == a;
    } else {
      var k := |b| - 1;
      GatherSplit(m, a, b[..k]);
      assert (a + b)[..|a + b| - 1] == a + b[..k] && (a + b)[|a + b| - 1] == b[k];
      Regroup(Gather(m, a), Gather(m, b[..k]), if b[k] in m then m[b[k]] else []);
    }
  }

  lemma Regroup(a: seq<int>, b: seq<int>, c: seq<int>)
    ensures (a + b) + c == a + (b + c)
  {
  }

  /** Taking one provider out of an order takes its samples out. */
  lemma GatherWithout(m: Samples, order: seq<string>, i: nat)
    requires i < |order| && order[i] in m
    ensures multiset(Gather(m, order)) == multiset(Gather(m, Without(order, i))) + multiset(m[order[i]])
  {
    var a, b, c := order[..i], [order[i]], order[i + 1..];
    assert order == a + (b + c);
    GatherSplit(m, a, b + c);
    GatherSplit(m, b, c);
    GatherSplit(m, a, c);
    assert b[..0] == [] && Gather(m, b) == m[order[i]];
  }

  lemma BothNonEmpty(a: seq<string>, b: seq<string>)
    requires SameNames(a, b) && b != []
    ensures a != []
  {
    assert b[0] in b;
  }

  lemma {:induction false} GatherAnyOrder(m: Samples, a: seq<string>, b: seq<string>)
    requires (forall n :: n in a ==> n in m) && SameNames(a, b) && Distinct(a) && Distinct(b)
    ensures multiset(Gather(m, a)) == multiset(Gather(m, b))
  {
    if b != [] { BothNonEmpty(a, b); }
    if a != [] {
      var k := |a| - 1;
      assert a[k] in b;
      var i :| 0 <= i < |b| && b[i] == a[k];
      RestNames(a, b, i);
      GatherAnyOrder(m, a[..k], Without(b, i));
      GatherWithout(m, b, i);
    }
  }

  lemma RestNames(a: seq<string>, b: seq<string>, i: nat)
    requires a != [] && i < |b| && b[i] == a[|a| - 1] && SameNames(a, b) && Distinct(a) && Distinct(b)
    ensures SameNames(a[..|a| - 1], Without(b, i)) && Distinct(Without(b, i))
  {
    var rest := Without(b, i);
    forall n ensures n in a[..|a| - 1] <==> n in rest {
      if n in a[..|a| - 1] {
        assert n in a && n in b && n != b[i];
        var j :| 0 <= j < |b| && b[j] == n;
        assert rest[if j < i then j else j - 1] == n;
      }
      if n in rest {
        var j :| 0 <= j < |rest| && rest[j] == n;
        assert b[if j < i then j else j + 1] == n;
        assert n in b && n in a;
        var k :| 0 <= k < |a| && a[k] == n;
        assert a[..|a| - 1][k] == n;
      }
    }
  }

  /** `r` is what a fresh computation gives, whatever order the map is walked in. */
  ghost predicate IsGlobal(r: Stats, m: Samples) {
    forall order :: Enumerates(order, m) ==> r == Calc(Gather(m, order))
  }

  /** One order speaks for all. */
  lemma {:induction false} OneOrderIsAll(m: Samples, order: seq<string>)
    requires Enumerates(order, m)
    ensures IsGlobal(Calc(Gather(m, order)), m)
  {
    forall o | Enumerates(o, m) ensures Calc(Gather(m, order)) == Calc(Gather(m, o)) {
      GatherAnyOrder(m, order, o);
      StatsOfMultiset(Gather(m, order), Gather(m, o));
    }
  }

  lemma {:induction false} SomeOrder(names: set<string>) returns (order: seq<string>)
    ensures Distinct(order) && forall n :: n in order <==> n in names
    decreases names
  {
    order := [];
    if names != {} {
      var n :| n in names;
      var rest := SomeOrder(names - {n});
      assert forall i :: 0 <= i < |rest| ==> rest[i] in rest;
      order := rest + [n];
    }
  }

  /** The statistics of all samples together. */
  ghost function GlobalOf(m: Samples): (r: Stats)
    ensures IsGlobal(r, m)
  {
    HasOrder(m);
    var order :| Enumerates(order, m);
    OneOrderIsAll(m, order);
    Calc(Gather(m, order))
  }

  lemma HasOrder(m: Samples)
    ensures exists order :: Enumerates(order, m)
  {
    var order := SomeOrder(m.Keys);
    assert Enumerates(order, m);
  }

  lemma GlobalUnique(m: Samples, r: Stats)
    requires IsGlobal(r, m)
    ensures r == GlobalOf(m)
  {
    HasOrder(m);
  }

  /** How many standard deviations a provider's mean lies above the mean of everyone's samples. */
  function Slowness(own: seq<int>, all: Stats): real {
    if own == [] || all.stdDev == 0 then 0.0
    else (Mean(own) - all.mean) as real / all.stdDev as real
  }

  /** The factor is the distance of the provider's mean above everyone's, in deviations: positive
      exactly for a slower mean, larger for the slower of two, and one at one deviation. */
  lemma SlownessMeaning(own: seq<int>, other: seq<int>, all: Stats)
    requires own != [] && other != [] && all.stdDev > 0
    ensures Slowness(own, all) * all.stdDev as real == (Mean(own) - all.mean) as real
    ensures Slowness(own, all) > 0.0 <==> Mean(own) > all.mean
    ensures Slowness(own, all) < Slowness(other, all) <==> Mean(own) < Mean(other)
    ensures Mean(own) == all.mean + all.stdDev ==> Slowness(own, all) == 1.0
  {
    hide Mean;
    var a, b, d := (Mean(own) - all.mean) as real, (Mean(other) - all.mean) as real, all.stdDev as real;
    Quotients(a, b, d);
  }

  lemma Quotients(a: real, b: real, d: real)
    requires d > 0.0
    ensures a / d * d == a && (a / d > 0.0 <==> a > 0.0) && (a / d < b / d <==> a < b) && (a == d ==> a / d == 1.0)
  {
    var x, y := a / d, b / d;
    assert x * d == a && y * d == b;
    if x < y { RealScale(x, y, d); }
    if y <= x { RealMono(y, x, d); }
    if x > 0.0 { RealScale(0.0, x, d); }
    if x <= 0.0 { RealMono(x, 0.0, d); }
  }

  lemma RealScale(x: real, y: real, d: real)
    requires x < y && d > 0.0
    ensures x * d < y * d
  {
    assert (y - x) * d > 0.0;
  }

  /** A provider with no peers is average. */
  lemma {:induction false} AloneIsAverage(m: Samples, provider: string)
    requires m.Keys == {provider}
    ensures Slowness(m[provider], GlobalOf(m)) == 0.0
  {
    hide Calc, GlobalOf, Slowness;
    var one := [provider];
    assert Enumerates(one, m);
    assert Gather(m, one) == m[provider] by { assert one[..0] == []; }
    OwnSlowness(m[provider]);
  }

  lemma OwnSlowness(own: seq<int>)
    ensures Slowness(own, Calc(own)) == 0.0
  {
    hide Sort, Percentile, Sum, Deviation, Quot, RootFloor;
    if own != [] && Calc(own).stdDev != 0 {
      var n, d := Mean(own) - Calc(own).mean, Calc(own).stdDev;
      assert n == 0;
    }
  }

  /** The newest `window` samples after one more. */
  function Slide(s: seq<int>, x: int, window: nat): (r: seq<int>)
    ensures |s| <= window && window > 0 ==> |r| <= window && r != [] && r[|r| - 1] == x
  {
    var t := s + [x];
    if |t| > window then t[1..] else t
  }

  function SlideAll(xs: seq<int>, window: nat): seq<int> {
    if xs == [] then [] else Slide(SlideAll(xs[..|xs| - 1], window), xs[|xs| - 1], window)
  }

  function LastOf(xs: seq<int>, n: nat): seq<int> { if |xs| > n then xs[|xs| - n..] else xs }

  /** A window holds exactly the newest samples ever recorded, in order, as many as it has room for. */
  lemma {:induction false} WindowIsNewest(xs: seq<int>, window: nat)
    requires window > 0
    ensures SlideAll(xs, window) == LastOf(xs, window)
  {
    if xs != [] {
      var k := |xs| - 1;
      WindowIsNewest(xs[..k], window);
      SlideNewest(xs[..k], xs[k], window);
      assert xs == xs[..k] + [xs[k]];
    }
  }

  lemma SlideNewest(xs: seq<int>, x: int, window: nat)
    requires window > 0
    ensures Slide(LastOf(xs, window), x, window) == LastOf(xs + [x], window)
  {
  }

  class LatencyTracker {
    var samples: Samples
    var windowSize: nat
    var globalStats: Option<Stats>
    var statsDirty: bool

    /** Windows are bounded, and a clean cache is what recomputing would give. */
    ghost predicate Valid()
      reads this
    {
      && windowSize > 0
      && (forall n :: n in samples ==> |samples[n]| <= windowSize)
      && (!statsDirty && globalStats.Some? ==> IsGlobal(globalStats.value, samples))
    }

    constructor (windowSize: int)
      ensures Valid() && samples == map[] && this.windowSize == if windowSize <= 0 then 100 else windowSize
    {
      samples, globalStats, statsDirty := map[], None, true;
      this.windowSize := if windowSize <= 0 then 100 else windowSize;
    }

    method RecordLatency(provider: string, latency: int)
      requires Valid()
      modifies this
      ensures Valid() && windowSize == old(windowSize)
      ensures var before := if provider in old(samples) then old(samples)[provider] else [];
              samples == old(samples)[provider := Slide(before, latency, windowSize)]
    {
      var window := if provider in samples then samples[provider] else [];
      window := window + [latency];
      if |window| > windowSize { window := window[1..]; }
      samples := samples[provider := window];
      statsDirty := true;
    }

    /** Cached or recomputed, the answer is the fresh one for every iteration order. */
    method GetGlobalStats() returns (r: Stats)
      requires Valid()
      modifies this
      ensures Valid() && samples == old(samples) && windowSize == old(windowSize)
      ensures IsGlobal(r, samples)
    {
      if !statsDirty && globalStats.Some? { return globalStats.value; }
      var all, order := GatherAll(samples);
      OneOrderIsAll(samples, order);
      if |all| == 0 { return NoStats; }
      r := CalculateStats(all);
      globalStats := Some(r);
      statsDirty := false;
    }

    method GetProviderSlownessFactor(provider: string) returns (f: real)
      requires Valid()
      modifies this
      ensures Valid() && samples == old(samples) && windowSize == old(windowSize)
      ensures f == Slowness(if provider in samples then samples[provider] else [], GlobalOf(samples))
    {
      if provider !in samples || |samples[provider]| == 0 { return 0.0; }
      var own := samples[provider];
      var all := GetGlobalStats();
      GlobalUnique(samples, all);
      if all.stdDev == 0 { return 0.0; }
      var sum := Total(own);
      return (Quot(sum, |own|) - all.mean) as real / all.stdDev as real;
    }

    method Reset()
      requires Valid()
      modifies this
      ensures Valid() && samples == map[] && windowSize == old(windowSize)
    {
      samples, globalStats, statsDirty := map[], None, true;
    }
  }

  /** Walks the map in an order the caller cannot predict. */
  method GatherAll(m: Samples) returns (all: seq<int>, ghost order: seq<string>)
    ensures Enumerates(order, m) && all == Gather(m, order) && Calc(all) == GlobalOf(m)
  {
    all, order := [], [];
    var left := m.Keys;
    while left != {}
      invariant left <= m.Keys && all == Gather(m, order)
      invariant forall n :: n in order <==> n in m && n !in left
      invariant Distinct(order)
      decreases left
    {
      var n :| n in left;
      assert (order + [n])[..|order|] == order;
      assert forall i :: 0 <= i < |order| ==> order[i] in order;
      all := all + m[n];
      order := order + [n];
      left := left - {n};
    }
    hide Calc;
    assert Enumerates(order, m);
  }
}
