/**
 The summary of a set of latencies reported to the user: extremes, median, mean,
 nearest-rank percentiles and jitter (statsOf in internal/engine/stats.go).
 */
module LatencySummary {
  import opened Series
  import opened Stats

  /** A percentile field that lacks enough samples is left at zero. */
  datatype LatencyStats = LatencyStats(
    samples: nat, min: int, median: int, mean: int,
    p80: int, p90: int, p95: int, p99: int, max: int, jitter: int)

  const NO_STATS := LatencyStats(0, 0, 0, 0, 0, 0, 0, 0, 0, 0)

  /** The sample count from which each reported percentile is told apart from the maximum. */
  function MinSamples(p: nat): nat
    requires p in {80, 90, 95, 99}
  {
    match p case 80 => 5 case 90 => 10 case 95 => 20 case _ => 100
  }

  /** The table of sample counts is exact: below it the nearest rank is the maximum's, from it on it is not. */
  lemma MinSamplesExact(p: nat, n: nat)
    requires p in {80, 90, 95, 99} && n > 0
    ensures n >= MinSamples(p) <==> Ceiling(Share(p as real, n)) < n
  {
    PercentilePresence(p, n);
  }

  function Median(sorted: seq<int>): int {
    var n := |sorted|;
    if n == 0 then 0
    else if n % 2 == 1 then sorted[n / 2]
    else Quotient(sorted[n / 2 - 1] + sorted[n / 2], 2)
  }

  function Distance(a: int, b: int): nat {
    if a < b then b - a else a - b
  }

  function Deviation(d: seq<int>, center: int): nat {
    if d == [] then 0 else Distance(d[0], center) + Deviation(d[1..], center)
  }

  /** Mean absolute deviation from the (whole-nanosecond) mean. */
  function JitterOf(d: seq<int>): int {
    if d == [] then 0 else Truncate(Deviation(d, MeanDuration(d)) as real / |d| as real)
  }

  predicate IsPercentile(d: seq<int>, p: nat, v: int)
    requires p in {80, 90, 95, 99}
  {
    if |d| >= MinSamples(p) then NearestRank(d, p as real, v) else v == 0
  }

  /** st says of the samples d, in whatever order they came, what its field names promise. */
  predicate Describes(d: seq<int>, st: LatencyStats) {
    && st.samples == |d|
    && st.min in d && (forall k :: 0 <= k < |d| ==> st.min <= d[k])
    && st.max in d && (forall k :: 0 <= k < |d| ==> d[k] <= st.max)
    && 2 * CountBelow(d, st.median) <= |d| <= 2 * CountAtMost(d, st.median)
    && st.mean == MeanDuration(d)
    && IsPercentile(d, 80, st.p80) && IsPercentile(d, 90, st.p90)
    && IsPercentile(d, 95, st.p95) && IsPercentile(d, 99, st.p99)
    && st.jitter == JitterOf(d)
  }

  /** The figures that are present are in the order their names suggest. */
  predicate Ordered(st: LatencyStats) {
    && st.min <= st.median <= st.max
    && st.min <= st.mean <= st.max
    && (st.samples >= 5 ==> st.median <= st.p80 <= st.max)
    && (st.samples >= 10 ==> st.p80 <= st.p90 <= st.max)
    && (st.samples >= 20 ==> st.p90 <= st.p95 <= st.max)
    && (st.samples >= 100 ==> st.p95 <= st.p99 <= st.max)
  }

  // ---- Median ----

  lemma QuotientBetween(a: int, b: int)
    requires a <= b
    ensures a <= Quotient(a + b, 2) <= b
  {
  }

  lemma {:induction false} SplitCounts(s: seq<int>, i: nat, v: int)
    requires Sorted(s) && i <= |s|
    requires i < |s| ==> v <= s[i]
    ensures CountBelow(s, v) <= i
  {
    if i == 0 {
      CountNone(s, v - 1);
    } else {
      SplitCounts(s[1..], i - 1, v);
    }
  }

  lemma {:induction false} PrefixCounts(s: seq<int>, i: nat, v: int)
    requires i <= |s| && forall k :: 0 <= k < i ==> s[k] <= v
    ensures CountAtMost(s, v) >= i
  {
    if i == 0 {
    } else {
      PrefixCounts(s[1..], i - 1, v);
    }
  }

  lemma MedianBetween(s: seq<int>)
    requires s != [] && Sorted(s)
    ensures s[(|s| - 1) / 2] <= Median(s) <= s[|s| / 2]
  {
    var n := |s|;
    if n % 2 == 0 {
      QuotientBetween(s[n / 2 - 1], s[n / 2]);
    }
  }

  /** At most half of the samples lie below the median and at least half up to it. */
  lemma MedianHalves(d: seq<int>)
    requires d != []
    ensures var m := Median(SortedCopy(d));
            2 * CountBelow(d, m) <= |d| <= 2 * CountAtMost(d, m)
  {
    hide SortedCopy;
    var s := SortedCopy(d);
    var m := Median(s);
    SortedCopySorted(d);
    MedianBetween(s);
    SplitCounts(s, |s| / 2, m);
    PrefixCounts(s, (|s| - 1) / 2 + 1, m);
    CountSortedCopy(d, m);
    CountSortedCopy(d, m - 1);
  }

  /** In a sorted list the samples up to v are exactly its first ones. */
  lemma SplitAt(s: seq<int>, v: int)
    requires Sorted(s)
    ensures var c := CountAtMost(s, v);
            c <= |s| && (c > 0 ==> s[c - 1] <= v) && (c < |s| ==> v < s[c])
  {
    hide CountAtMost;
    var c := CountAtMost(s, v);
    CountWithin(s, v);
    if c > 0 && s[c - 1] > v {
      SplitCounts(s, c - 1, v + 1);
    }
    if c < |s| && s[c] <= v {
      PrefixCounts(s, c + 1, v);
    }
  }

  lemma {:induction false} CountWithin(s: seq<int>, v: int)
    ensures CountAtMost(s, v) <= |s|
  {
    if s == [] {
    } else {
      CountWithin(s[1..], v);
    }
  }

  /** When half of the samples reach up to one of them, and half begin at another, the median is their midpoint. */
  lemma MedianMidpoint(d: seq<int>, a: int, b: int)
    requires a in d && b in d && 2 * CountAtMost(d, a) == |d| == 2 * CountBelow(d, b)
    ensures Median(SortedCopy(d)) == Quotient(a + b, 2)
  {
    hide SortedCopy, CountAtMost, Quotient, Sorted, Median;
    var s := SortedCopy(d);
    SortedCopySorted(d);
    SortedCopyMembers(d);
    CountSortedCopy(d, a);
    CountSortedCopy(d, b - 1);
    assert a in multiset(d) && b in multiset(d);
    assert a in multiset(s) && b in multiset(s);
    MiddlePair(s, a, b);
  }

  lemma MiddlePair(s: seq<int>, a: int, b: int)
    requires Sorted(s) && a in s && b in s && 2 * CountAtMost(s, a) == |s| == 2 * CountBelow(s, b)
    ensures Median(s) == Quotient(a + b, 2)
  {
    hide CountAtMost, Quotient;
    var m := |s| / 2;
    SplitAt(s, a);
    SplitAt(s, b - 1);
    var i :| 0 <= i < |s| && s[i] == a;
    var j :| 0 <= j < |s| && s[j] == b;
    assert s[m - 1] == a;
    assert s[m] == b;
  }

  lemma MedianBelowP80(s: seq<int>)
    requires Sorted(s) && |s| >= 5
    ensures Median(s) <= Percentile(s, 80.0)
  {
    MedianBetween(s);
    PercentileRank(s, 80.0);
    assert Share(80.0, |s|) >= (|s| / 2) as real;
    assert Ceiling(Share(80.0, |s|)) - 1 >= |s| / 2;
  }

  // ---- Jitter ----

  function RealDistance(a: real, b: real): real {
    if a < b then b - a else a - b
  }

  function RealDeviation(d: seq<int>, center: real): real {
    if d == [] then 0.0 else RealDistance(d[0] as real, center) + RealDeviation(d[1..], center)
  }

  lemma {:induction false} DeviationInsert(x: int, s: seq<int>, c: int)
    ensures Deviation(Insert(x, s), c) == Distance(x, c) + Deviation(s, c)
  {
    if s != [] && s[0] < x {
      DeviationInsert(x, s[1..], c);
      assert ([s[0]] + Insert(x, s[1..]))[1..] == Insert(x, s[1..]);
    } else {
      assert ([x] + s)[1..] == s;
    }
  }

  lemma {:induction false} DeviationSortedCopy(d: seq<int>, c: int)
    ensures Deviation(SortedCopy(d), c) == Deviation(d, c)
  {
    if d == [] {
    } else {
      DeviationSortedCopy(d[1..], c);
      DeviationInsert(d[0], SortedCopy(d[1..]), c);
    }
  }

  lemma {:induction false} DeviationShift(d: seq<int>, center: int, mu: real)
    requires RealDistance(center as real, mu) <= 1.0
    ensures Deviation(d, center) as real <= RealDeviation(d, mu) + |d| as real
  {
    if d == [] {
    } else {
      DeviationShift(d[1..], center, mu);
    }
  }

  /** w times dev is at most a steps of x and b steps of y. */
  predicate BelowChord(w: int, dev: real, a: int, b: int, x: real, y: real) {
    w as real * dev <= a as real * x + b as real * y
  }

  /** The distance |v - mu| lies below the chord through the ends of the interval. */
  lemma Chord(v: int, low: int, high: int, mu: real)
    requires low <= v <= high && low as real <= mu <= high as real
    ensures BelowChord(high - low, RealDistance(v as real, mu), high - v, v - low, mu - low as real, high as real - mu)
  {
    if v as real < mu {
      ProductNonNegative((v - low) as real, high as real - mu);
    } else {
      ProductNonNegative((high - v) as real, mu - low as real);
    }
  }

  lemma ProductNonNegative(a: real, b: real)
    requires a >= 0.0 && b >= 0.0
    ensures a * b >= 0.0
  {
  }

  /** Total distance to the ends of [low, high]. */
  function Room(d: seq<int>, low: int, high: int): (int, int) {
    if d == [] then (0, 0)
    else
      var r := Room(d[1..], low, high);
      (high - d[0] + r.0, d[0] - low + r.1)
  }

  lemma Distribute(k: int, x: int)
    ensures (k - 1) * x + x == k * x
  {
  }

  lemma {:induction false} RoomTotals(d: seq<int>, low: int, high: int)
    ensures Room(d, low, high) == (high * |d| - Total(d), Total(d) - low * |d|)
  {
    if d == [] {
    } else {
      RoomTotals(d[1..], low, high);
      Distribute(|d|, high);
      Distribute(|d|, low);
    }
  }

  lemma {:induction false} DeviationChord(d: seq<int>, low: int, high: int, mu: real)
    requires forall k :: 0 <= k < |d| ==> low <= d[k] <= high
    requires low as real <= mu <= high as real
    ensures var r := Room(d, low, high);
            BelowChord(high - low, RealDeviation(d, mu), r.0, r.1, mu - low as real, high as real - mu)
  {
    if d == [] {
    } else {
      hide BelowChord, RealDistance;
      var r := Room(d[1..], low, high);
      DeviationChord(d[1..], low, high, mu);
      Chord(d[0], low, high, mu);
      ChordStep(high - low, RealDistance(d[0] as real, mu), RealDeviation(d[1..], mu),
                high - d[0], r.0, d[0] - low, r.1, mu - low as real, high as real - mu);
    }
  }

  lemma ChordStep(w: int, dist: real, rest: real, a0: int, a1: int, b0: int, b1: int, x: real, y: real)
    requires BelowChord(w, dist, a0, b0, x, y) && BelowChord(w, rest, a1, b1, x, y)
    ensures BelowChord(w, dist + rest, a0 + a1, b0 + b1, x, y)
  {
    Spread(w as real, dist, rest);
    Spread(x, a0 as real, a1 as real);
    Spread(y, b0 as real, b1 as real);
  }

  lemma Spread(a: real, b: real, c: real)
    ensures a * (b + c) == a * b + a * c
  {
  }

  /** The product of two lengths is at most a quarter of the square of their sum. */
  lemma QuarterSquare(a: real, b: real)
    ensures 4.0 * (a * b) <= (a + b) * (a + b)
  {
    assert (a - b) * (a - b) >= 0.0;
  }

  lemma HalfRange(dev: real, w: real, a: real, b: real, n: real)
    requires w > 0.0 && n > 0.0 && a + b == w
    requires w * dev <= 2.0 * (n * (a * b))
    ensures 2.0 * dev <= n * w
  {
    QuarterSquare(a, b);
    assert 4.0 * (a * b) <= w * w;
    assert n * (4.0 * (a * b)) <= n * (w * w) by {
      assert n * (w * w - 4.0 * (a * b)) >= 0.0;
    }
    assert w * (n * w - 2.0 * dev) >= 0.0;
  }

  lemma MeanSpread(n: nat, t: int, mu: real, low: int, high: int)
    requires t as real == mu * n as real
    ensures (high * n - t) as real * (mu - low as real) + (t - low * n) as real * (high as real - mu)
            == 2.0 * (n as real * ((high as real - mu) * (mu - low as real)))
  {
    assert (high * n) as real == high as real * n as real && (low * n) as real == low as real * n as real;
    assert (high * n - t) as real == n as real * (high as real - mu);
    assert (t - low * n) as real == n as real * (mu - low as real);
  }

  /** The mean absolute deviation from the true mean is at most half of the range. */
  lemma DeviationHalfRange(d: seq<int>, low: int, high: int)
    requires d != [] && forall k :: 0 <= k < |d| ==> low <= d[k] <= high
    ensures 2.0 * RealDeviation(d, Total(d) as real / |d| as real) <= |d| as real * (high - low) as real
  {
    hide BelowChord, RealDeviation;
    var n, t := |d|, Total(d);
    var mu := t as real / n as real;
    TrueMeanBetween(d, low, high);
    if low == high {
      NoDeviation(d, low, mu);
      assert (high - low) as real == 0.0;
    } else {
      DeviationChord(d, low, high, mu);
      RoomTotals(d, low, high);
      HalfRangeOf(RealDeviation(d, mu), n, t, mu, low, high);
    }
  }

  lemma HalfRangeOf(dev: real, n: nat, t: int, mu: real, low: int, high: int)
    requires low < high && n > 0 && mu == t as real / n as real
    requires BelowChord(high - low, dev, high * n - t, t - low * n, mu - low as real, high as real - mu)
    ensures 2.0 * dev <= n as real * (high - low) as real
  {
    MeanSpread(n, t, mu, low, high);
    HalfRange(dev, (high - low) as real, high as real - mu, mu - low as real, n as real);
  }

  lemma TrueMeanBetween(d: seq<int>, low: int, high: int)
    requires d != [] && forall k :: 0 <= k < |d| ==> low <= d[k] <= high
    ensures low as real <= Total(d) as real / |d| as real <= high as real
  {
    TotalBounds(d, low, high);
    FractionBetween(Total(d), |d|, low, high);
  }

  lemma FractionBetween(t: int, n: nat, low: int, high: int)
    requires n > 0 && low * n <= t <= high * n
    ensures low as real <= t as real / n as real <= high as real
  {
    CastProduct(high, n);
    CastProduct(low, n);
    DivideAtMost(t as real, high as real, n as real);
    DivideAtLeast(t as real, low as real, n as real);
  }

  lemma {:induction false} NoDeviation(d: seq<int>, v: int, mu: real)
    requires mu == v as real && forall k :: 0 <= k < |d| ==> v <= d[k] <= v
    ensures RealDeviation(d, mu) == 0.0
  {
    if d == [] {
    } else {
      NoDeviation(d[1..], v, mu);
    }
  }

  /** Jitter never exceeds half of the range by more than the nanosecond lost to truncation. */
  lemma JitterBound(d: seq<int>, low: int, high: int)
    requires d != [] && forall k :: 0 <= k < |d| ==> low <= d[k] <= high
    ensures 2 * JitterOf(d) <= (high - low) + 2
  {
    var mu := Total(d) as real / |d| as real;
    DeviationHalfRange(d, low, high);
    TruncateNear(mu);
    DeviationShift(d, MeanDuration(d), mu);
    HalfTruncated(Deviation(d, MeanDuration(d)), |d|, high - low, RealDeviation(d, mu));
  }

  lemma HalfTruncated(dev: int, n: nat, w: int, exact: real)
    requires n > 0 && w >= 0 && 2.0 * exact <= n as real * w as real && dev as real <= exact + n as real
    ensures 2 * Truncate(dev as real / n as real) <= w + 2
  {
    var half := w as real / 2.0 + 1.0;
    DivideAtMost(dev as real, half, n as real);
    TruncateMonotone(dev as real / n as real, half);
  }

  // ---- The summary itself ----

  lemma {:induction false} TotalSnoc(d: seq<int>, i: nat)
    requires i < |d|
    ensures Total(d[..i + 1]) == Total(d[..i]) + d[i]
  {
    TotalAppend(d[..i], d[i]);
    assert d[..i + 1] == d[..i] + [d[i]];
  }

  lemma {:induction false} DeviationAppend(s: seq<int>, x: int, c: int)
    ensures Deviation(s + [x], c) == Deviation(s, c) + Distance(x, c)
  {
    if s == [] {
    } else {
      DeviationAppend(s[1..], x, c);
      assert (s + [x])[1..] == s[1..] + [x];
    }
  }

  lemma MeanBetween(d: seq<int>, low: int, high: int)
    requires d != [] && forall k :: 0 <= k < |d| ==> low <= d[k] <= high
    ensures low <= MeanDuration(d) <= high
  {
    TrueMeanBetween(d, low, high);
    TruncateMonotone(low as real, Total(d) as real / |d| as real);
    TruncateMonotone(Total(d) as real / |d| as real, high as real);
  }

  lemma {:induction false} DeviationOfOne(d: seq<int>, c: int, k: nat)
    requires k < |d|
    ensures Deviation(d, c) >= Distance(d[k], c)
  {
    if k == 0 {
    } else {
      DeviationOfOne(d[1..], c, k - 1);
    }
  }

  lemma {:induction false} DeviationOfTwo(d: seq<int>, c: int, j: nat, k: nat)
    requires j < k < |d|
    ensures Deviation(d, c) >= Distance(d[j], c) + Distance(d[k], c)
  {
    if j == 0 {
      DeviationOfOne(d[1..], c, k - 1);
    } else {
      DeviationOfTwo(d[1..], c, j - 1, k - 1);
    }
  }

  lemma WholePart(x: real, n: real)
    requires x >= 0.0 && n > 0.0
    ensures x < n * (Truncate(x / n) + 1) as real
  {
    var q := x / n;
    DivideAtLeast(x, 0.0, n);
    assert Truncate(q) as real > q - 1.0;
    ScaleLess(n, q, (Truncate(q) + 1) as real);
    assert n * q == x;
  }

  /** Samples that differ show in the jitter: n times it is short of no difference by n or more. */
  lemma JitterFloor(d: seq<int>, j: nat, k: nat)
    requires j < |d| && k < |d|
    ensures Distance(d[j], d[k]) < |d| * (JitterOf(d) + 1)
  {
    hide MeanDuration, Truncate, Deviation;
    var c := MeanDuration(d);
    if j < k {
      DeviationOfTwo(d, c, j, k);
    } else if k < j {
      DeviationOfTwo(d, c, k, j);
    }
    WholePart(Deviation(d, c) as real, |d| as real);
    CastProduct(|d|, JitterOf(d) + 1);
  }

  /** Every sample is one of the two. */
  predicate TwoValued(d: seq<int>, low: int, high: int) {
    forall k :: 0 <= k < |d| ==> d[k] == low || d[k] == high
  }

  lemma {:induction false} TwoValuedDeviation(d: seq<int>, low: int, high: int, c: int)
    requires TwoValued(d, low, high) && low < high && low <= c <= high
    ensures CountAtMost(d, low) <= |d|
    ensures Deviation(d, c) == Times(c - low, CountAtMost(d, low)) + Times(high - c, |d| - CountAtMost(d, low))
  {
    hide Times;
    TimesMore(c - low, 0);
    TimesMore(high - c, 0);
    if d == [] {
    } else {
      var rest := d[1..];
      assert TwoValued(rest, low, high) by {
        assert forall k :: 0 <= k < |rest| ==> rest[k] == d[k + 1];
      }
      TwoValuedDeviation(rest, low, high, c);
      var n := CountAtMost(rest, low);
      TimesMore(c - low, n);
      TimesMore(high - c, |rest| - n);
    }
  }

  /** The bound is attained: half of the samples at either end give half of the range. */
  lemma JitterTight(d: seq<int>, low: int, high: int)
    requires d != [] && TwoValued(d, low, high) && low < high && 2 * CountAtMost(d, low) == |d|
    ensures JitterOf(d) == Quotient(high - low, 2)
  {
    hide MeanDuration, Deviation, CountAtMost;
    var n, c := CountAtMost(d, low), MeanDuration(d);
    MeanBetween(d, low, high);
    TwoValuedDeviation(d, low, high, c);
    assert Times(c - low, n) + Times(high - c, n) == n * (high - low);
    HalfOf(n, high - low);
  }

  lemma HalfOf(n: nat, w: nat)
    requires n > 0
    ensures Truncate((n * w) as real / (2 * n) as real) == Quotient(w, 2)
  {
    var x := (n * w) as real / (2 * n) as real;
    CastProduct(n, w);
    CastProduct(2, n);
    assert x * (2 * n) as real == (n * w) as real;
    assert n as real * (2.0 * x - w as real) == 0.0;
    assert 2.0 * x == w as real;
  }

  method MeanOf(d: seq<int>) returns (mean: int)
    ensures mean == MeanDuration(d)
  {
    if |d| == 0 {
      return 0;
    }
    var sum := 0.0;
    for i := 0 to |d|
      invariant sum == Total(d[..i]) as real
    {
      TotalSnoc(d, i);
      sum := sum + d[i] as real;
    }
    assert d[..|d|] == d;
    mean := Truncate(sum / |d| as real);
  }

  lemma MemberOfSorted(d: seq<int>)
    requires d != []
    ensures var s := SortedCopy(d);
            && s[0] in d && s[|s| - 1] in d
            && forall k :: 0 <= k < |d| ==> s[0] <= d[k] <= s[|s| - 1]
  {
    var s := SortedCopy(d);
    SortedCopySorted(d);
    SortedCopyMembers(d);
    assert s[0] in multiset(d) && s[|s| - 1] in multiset(d);
    forall k | 0 <= k < |d| ensures s[0] <= d[k] <= s[|s| - 1] {
      assert d[k] in multiset(s);
    }
  }

  lemma PercentilesOrdered(s: seq<int>)
    requires s != [] && Sorted(s)
    ensures && s[0] <= Median(s) <= s[|s| - 1]
            && (|s| >= 5 ==> Median(s) <= Percentile(s, 80.0))
            && Percentile(s, 80.0) <= Percentile(s, 90.0) <= Percentile(s, 95.0)
            && Percentile(s, 95.0) <= Percentile(s, 99.0) <= s[|s| - 1]
  {
    MedianBetween(s);
    if |s| >= 5 { MedianBelowP80(s); }
    PercentileMonotone(s, 80.0, 90.0);
    PercentileMonotone(s, 90.0, 95.0);
    PercentileMonotone(s, 95.0, 99.0);
  }

  method StatsOf(d: seq<int>) returns (st: LatencyStats)
    ensures if d == [] then st == NO_STATS else Describes(d, st)
    ensures d != [] ==> Ordered(st) && 2 * st.jitter <= (st.max - st.min) + 2
  {
    if |d| == 0 {
      return NO_STATS;
    }
    var sorted := SortedCopy(d);
    CountSortedCopy(d, 0);
    var mean := MeanOf(sorted);
    var dev := 0.0;
    for i := 0 to |sorted|
      invariant dev == Deviation(sorted[..i], mean) as real
    {
      DeviationAppend(sorted[..i], sorted[i], mean);
      assert sorted[..i + 1] == sorted[..i] + [sorted[i]];
      dev := dev + Distance(sorted[i], mean) as real;
    }
    assert sorted[..|sorted|] == sorted;
    DeviationSortedCopy(d, mean);
    var n := |sorted|;
    st := LatencyStats(n, sorted[0], Median(sorted), mean, 0, 0, 0, 0, sorted[n - 1], Truncate(dev / n as real));
    if n >= MinSamples(80) { st := st.(p80 := Percentile(sorted, 80.0)); }
    if n >= MinSamples(90) { st := st.(p90 := Percentile(sorted, 90.0)); }
    if n >= MinSamples(95) { st := st.(p95 := Percentile(sorted, 95.0)); }
    if n >= MinSamples(99) { st := st.(p99 := Percentile(sorted, 99.0)); }
    MemberOfSorted(d);
    MedianHalves(d);
    PercentileHasRank(d, 80.0);
    PercentileHasRank(d, 90.0);
    PercentileHasRank(d, 95.0);
    PercentileHasRank(d, 99.0);
    SortedCopySorted(d);
    PercentilesOrdered(sorted);
    MeanBetween(d, st.min, st.max);
    JitterBound(d, st.min, st.max);
  }

  /** A summary's jitter is short of its range by less than a factor of the number of samples. */
  lemma JitterOfRange(d: seq<int>, st: LatencyStats)
    requires d != [] && Describes(d, st)
    ensures st.max - st.min < st.samples * (st.jitter + 1)
  {
    hide JitterOf, IsPercentile, CountBelow, CountAtMost, MeanDuration;
    var j :| 0 <= j < |d| && d[j] == st.min;
    var k :| 0 <= k < |d| && d[k] == st.max;
    JitterFloor(d, j, k);
  }
}
