/**
 Latency statistics and the responsiveness figures (internal/engine/stats.go).
 Durations are whole nanoseconds; float64 is idealised as real.
 */
module Stats {
  import opened Series

  datatype LatencySample = LatencySample(
    total: int, dns: int, connect: int, tls: int, tlsRTTs: int, ttfb: int, http: int, staged: bool)

  const MILLISECOND := 1_000_000
  const SECOND := 1_000_000_000

  // ---- Integer conversions of the source language ----

  /** Conversion of a real to an integer, truncating toward zero. */
  function Truncate(x: real): int {
    if x >= 0.0 then x.Floor else -(-x).Floor
  }

  /** Integer division, truncating toward zero. */
  function Quotient(a: int, b: int): int
    requires b > 0
  {
    if a >= 0 then a / b else -(-a / b)
  }

  function Ceiling(x: real): int {
    -(-x).Floor
  }

  lemma TruncateMonotone(x: real, y: real)
    requires x <= y
    ensures Truncate(x) <= Truncate(y)
  {
  }

  lemma TruncateNear(x: real)
    ensures -1.0 < x - Truncate(x) as real < 1.0
  {
  }

  // ---- Sorting ----

  predicate Sorted(s: seq<int>) {
    forall i, j :: 0 <= i < j < |s| ==> s[i] <= s[j]
  }

  function Insert(x: int, s: seq<int>): (r: seq<int>)
    ensures |r| == |s| + 1
  {
    if s == [] || x <= s[0] then [x] + s else [s[0]] + Insert(x, s[1..])
  }

  function SortedCopy(d: seq<int>): (r: seq<int>)
    ensures |r| == |d|
  {
    if d == [] then [] else Insert(d[0], SortedCopy(d[1..]))
  }

  lemma {:induction false} InsertSorted(x: int, s: seq<int>)
    requires Sorted(s)
    ensures Sorted(Insert(x, s))
    ensures Insert(x, s)[0] == if s == [] || x <= s[0] then x else s[0]
  {
    if s == [] || s[0] >= x {
    } else {
      InsertSorted(x, s[1..]);
    }
  }

  lemma {:induction false} SortedCopySorted(d: seq<int>)
    ensures Sorted(SortedCopy(d))
  {
    if d == [] {
    } else {
      SortedCopySorted(d[1..]);
      InsertSorted(d[0], SortedCopy(d[1..]));
    }
  }

  lemma {:induction false} InsertMembers(x: int, s: seq<int>)
    ensures multiset(Insert(x, s)) == multiset(s) + multiset{x}
  {
    if s == [] || s[0] >= x {
    } else {
      InsertMembers(x, s[1..]);
      assert s == [s[0]] + s[1..];
    }
  }

  /** Sorting keeps every sample, with its multiplicity. */
  lemma {:induction false} SortedCopyMembers(d: seq<int>)
    ensures multiset(SortedCopy(d)) == multiset(d)
  {
    if d == [] {
    } else {
      SortedCopyMembers(d[1..]);
      InsertMembers(d[0], SortedCopy(d[1..]));
      assert d == [d[0]] + d[1..];
    }
  }

  lemma HeadIsLeast(a: seq<int>, b: seq<int>)
    requires a != [] && Sorted(b) && multiset(a) == multiset(b)
    ensures b != [] && b[0] <= a[0]
  {
    assert a[0] in multiset(b);
  }

  lemma SameTail(a: seq<int>, b: seq<int>)
    requires a != [] && b != [] && a[0] == b[0] && multiset(a) == multiset(b)
    ensures multiset(a[1..]) == multiset(b[1..])
  {
    assert a == [a[0]] + a[1..] && b == [b[0]] + b[1..];
    assert multiset(a[1..]) == multiset(a) - multiset{a[0]};
    assert multiset(b[1..]) == multiset(b) - multiset{b[0]};
  }

  lemma {:induction false} SortedUnique(a: seq<int>, b: seq<int>)
    requires Sorted(a) && Sorted(b) && multiset(a) == multiset(b)
    ensures a == b
  {
    if a == [] {
      if b != [] { HeadIsLeast(b, a); }
    } else {
      HeadIsLeast(a, b);
      HeadIsLeast(b, a);
      SameTail(a, b);
      SortedUnique(a[1..], b[1..]);
      assert a == [a[0]] + a[1..] && b == [b[0]] + b[1..];
    }
  }

  /** No statistic computed from a sorted copy depends on the order of arrival. */
  lemma OrderIrrelevant(a: seq<int>, b: seq<int>)
    requires multiset(a) == multiset(b)
    ensures SortedCopy(a) == SortedCopy(b)
  {
    SortedCopyMembers(a);
    SortedCopyMembers(b);
    SortedCopySorted(a);
    SortedCopySorted(b);
    SortedUnique(SortedCopy(a), SortedCopy(b));
  }

  // ---- Counting: the order-free description of a set of samples ----

  function CountAtMost(d: seq<int>, v: int): nat {
    if d == [] then 0 else (if d[0] <= v then 1 else 0) + CountAtMost(d[1..], v)
  }

  function CountBelow(d: seq<int>, v: int): nat {
    CountAtMost(d, v - 1)
  }

  function SumAtOrBelow(d: seq<int>, v: int): int {
    if d == [] then 0 else (if d[0] <= v then d[0] else 0) + SumAtOrBelow(d[1..], v)
  }

  function Total(d: seq<int>): int {
    if d == [] then 0 else d[0] + Total(d[1..])
  }

  lemma {:induction false} CountInsert(x: int, s: seq<int>, v: int)
    ensures CountAtMost(Insert(x, s), v) == CountAtMost(s, v) + (if x <= v then 1 else 0)
    ensures SumAtOrBelow(Insert(x, s), v) == SumAtOrBelow(s, v) + (if x <= v then x else 0)
    ensures Total(Insert(x, s)) == Total(s) + x
  {
    if s == [] || x <= s[0] {
      assert ([x] + s)[1..] == s;
    } else {
      CountInsert(x, s[1..], v);
      assert ([s[0]] + Insert(x, s[1..]))[1..] == Insert(x, s[1..]);
    }
  }

  lemma {:induction false} CountSortedCopy(d: seq<int>, v: int)
    ensures CountAtMost(SortedCopy(d), v) == CountAtMost(d, v)
    ensures SumAtOrBelow(SortedCopy(d), v) == SumAtOrBelow(d, v)
    ensures Total(SortedCopy(d)) == Total(d)
  {
    if d == [] {
    } else {
      CountSortedCopy(d[1..], v);
      CountInsert(d[0], SortedCopy(d[1..]), v);
    }
  }

  lemma {:induction false} CountMonotone(d: seq<int>, v: int, w: int)
    requires v <= w
    ensures CountAtMost(d, v) <= CountAtMost(d, w) <= |d|
  {
    if d == [] {
    } else {
      CountMonotone(d[1..], v, w);
    }
  }

  lemma {:induction false} CountNone(s: seq<int>, v: int)
    requires forall k :: 0 <= k < |s| ==> v < s[k]
    ensures CountAtMost(s, v) == 0
  {
    if s == [] {
    } else {
      CountNone(s[1..], v);
    }
  }

  /** The i-th member of a sorted series has at most i members below it and more than i up to it. */
  lemma {:induction false} SortedPosition(s: seq<int>, i: nat)
    requires Sorted(s) && i < |s|
    ensures CountBelow(s, s[i]) <= i < CountAtMost(s, s[i])
  {
    if i == 0 {
      CountNone(s, s[0] - 1);
    } else {
      SortedPosition(s[1..], i - 1);
    }
  }

  // ---- Percentiles ----

  /** p percent of n samples. */
  function Share(p: real, n: nat): real {
    p / 100.0 * n as real
  }

  /** The p-th percentile of sorted data, by nearest rank. */
  function Percentile(sorted: seq<int>, p: real): int {
    if sorted == [] then 0
    else if p <= 0.0 then sorted[0]
    else
      var rank := Ceiling(Share(p, |sorted|)) - 1;
      var rank := if rank < 0 then 0 else rank;
      var rank := if rank >= |sorted| then |sorted| - 1 else rank;
      sorted[rank]
  }

  /** v is the smallest sample with at least p percent of the samples at or below it. */
  predicate NearestRank(d: seq<int>, p: real, v: int) {
    HasRank(CountBelow(d, v), CountAtMost(d, v), Share(p, |d|))
  }

  /** The rank x, which need not be whole, falls after the first below and within the first upTo. */
  predicate HasRank(below: nat, upTo: nat, x: real) {
    below as real < x <= upTo as real
  }

  lemma NearestRankUnique(d: seq<int>, p: real, v: int, w: int)
    requires NearestRank(d, p, v) && NearestRank(d, p, w)
    ensures v == w
  {
    if v < w {
      CountMonotone(d, v, w - 1);
    } else if w < v {
      CountMonotone(d, w, v - 1);
    }
  }

  lemma RankInRange(p: real, n: nat)
    requires 0.0 < p <= 100.0 && n > 0
    ensures var x := Share(p, n);
            0 <= Ceiling(x) - 1 < n && (Ceiling(x) - 1) as real < x <= Ceiling(x) as real
  {
    ScalePositive(p / 100.0, n as real);
  }

  lemma PositionHasRank(d: seq<int>, s: seq<int>, i: nat)
    requires s == SortedCopy(d) && i < |d|
    ensures CountBelow(d, s[i]) <= i < CountAtMost(d, s[i])
  {
    hide SortedCopy;
    var v := s[i];
    SortedCopySorted(d);
    SortedPosition(s, i);
    CountSortedCopy(d, v);
    CountSortedCopy(d, v - 1);
  }

  lemma PercentileRank(s: seq<int>, p: real)
    requires s != [] && 0.0 < p <= 100.0
    ensures var x := Share(p, |s|);
            0 <= Ceiling(x) - 1 < |s| && Percentile(s, p) == s[Ceiling(x) - 1]
  {
    RankInRange(p, |s|);
  }

  lemma WholeRank(below: nat, i: nat, upTo: nat, x: real)
    requires below <= i < upTo && i as real < x <= (i + 1) as real
    ensures HasRank(below, upTo, x)
  {
  }

  lemma PercentileHasRank(d: seq<int>, p: real)
    requires d != [] && 0.0 < p <= 100.0
    ensures NearestRank(d, p, Percentile(SortedCopy(d), p))
  {
    var s, x := SortedCopy(d), Share(p, |d|);
    PercentileRank(s, p);
    var i := Ceiling(x) - 1;
    PositionHasRank(d, s, i);
    RankInRange(p, |d|);
    WholeRank(CountBelow(d, s[i]), i, CountAtMost(d, s[i]), x);
  }

  /** The computed percentile is the nearest-rank order statistic of the samples in any order. */
  lemma PercentileIsNearestRank(d: seq<int>, p: real, v: int)
    requires d != [] && 0.0 < p <= 100.0
    ensures NearestRank(d, p, v) <==> v == Percentile(SortedCopy(d), p)
  {
    PercentileHasRank(d, p);
    if NearestRank(d, p, v) {
      NearestRankUnique(d, p, v, Percentile(SortedCopy(d), p));
    }
  }

  lemma ScalePositive(q: real, n: real)
    requires 0.0 < q <= 1.0 && n > 0.0
    ensures 0.0 < q * n <= n
  {
  }

  /** A nearest-rank percentile is told apart from the maximum exactly from this many samples on. */
  lemma PercentilePresence(p: nat, n: nat)
    requires 0 < p < 100 && n > 0
    ensures Ceiling(Share(p as real, n)) < n <==> 100 <= (100 - p) * n
  {
    var x := Share(p as real, n);
    assert x == (p * n) as real / 100.0;
    assert (100 - p) * n == 100 * n - p * n;
    assert Ceiling(x) < n <==> x <= (n - 1) as real;
  }

  lemma PercentileMonotone(s: seq<int>, p: real, q: real)
    requires s != [] && Sorted(s) && 0.0 < p <= q
    ensures s[0] <= Percentile(s, p) <= Percentile(s, q) <= s[|s| - 1]
  {
    var x, y := Share(p, |s|), Share(q, |s|);
    assert x <= y by {
      assert (q / 100.0 - p / 100.0) * |s| as real >= 0.0;
    }
  }

  // ---- Means ----

  lemma {:induction false} TotalBounds(d: seq<int>, low: int, high: int)
    requires forall k :: 0 <= k < |d| ==> low <= d[k] <= high
    ensures low * |d| <= Total(d) <= high * |d|
  {
    if d == [] {
    } else {
      TotalBounds(d[1..], low, high);
    }
  }

  function MeanDuration(d: seq<int>): int {
    if d == [] then 0 else Truncate(Total(d) as real / |d| as real)
  }

  /** TM(p) of the draft: samples above the p-th percentile are left out of the mean. */
  function TrimmedMeanOf(d: seq<int>, p: real): int {
    var cut := Percentile(SortedCopy(d), p);
    var n := CountAtMost(d, cut);
    if n == 0 then 0 else Truncate(SumAtOrBelow(d, cut) as real / n as real)
  }

  lemma {:induction false} CountPrefix(s: seq<int>, i: nat, v: int)
    requires Sorted(s) && i <= |s|
    requires forall k :: 0 <= k < i ==> s[k] <= v
    requires forall k :: i <= k < |s| ==> v < s[k]
    ensures CountAtMost(s, v) == i && SumAtOrBelow(s, v) == Total(s[..i])
  {
    if i > 0 {
      CountPrefix(s[1..], i - 1, v);
      assert s[..i][1..] == s[1..][..i - 1];
    } else {
      CountNone(s, v);
      if s != [] {
        CountPrefix(s[1..], 0, v);
      }
    }
  }

  lemma {:induction false} TotalAppend(s: seq<int>, x: int)
    ensures Total(s + [x]) == Total(s) + x
  {
    if s == [] {
    } else {
      TotalAppend(s[1..], x);
      assert (s + [x])[1..] == s[1..] + [x];
    }
  }

  method TrimmedMean(d: seq<int>, p: real) returns (r: int)
    ensures r == TrimmedMeanOf(d, p)
  {
    if |d| == 0 {
      return 0;
    }
    var sorted := SortedCopy(d);
    var cut := Percentile(sorted, p);
    SortedCopySorted(d);
    var sum, n := 0.0, 0;
    while n < |sorted|
      invariant 0 <= n <= |sorted|
      invariant sum == Total(sorted[..n]) as real
      invariant forall k :: 0 <= k < n ==> sorted[k] <= cut
    {
      if sorted[n] > cut {
        break;
      }
      TotalAppend(sorted[..n], sorted[n]);
      assert sorted[..n + 1] == sorted[..n] + [sorted[n]];
      sum := sum + sorted[n] as real;
      n := n + 1;
    }
    CountPrefix(sorted, n, cut);
    CountSortedCopy(d, cut);
    if n == 0 {
      return 0;
    }
    r := Truncate(sum / n as real);
  }

  function Times(c: int, k: int): int {
    c * k
  }

  lemma TimesMore(c: int, k: int)
    ensures Times(c, 0) == 0 && Times(c, k + 1) == Times(c, k) + c
  {
  }

  lemma {:induction false} SumsAround(d: seq<int>, cut: int)
    ensures CountAtMost(d, cut) <= |d|
    ensures SumAtOrBelow(d, cut) <= Times(cut, CountAtMost(d, cut))
    ensures Total(d) - SumAtOrBelow(d, cut) >= Times(cut, |d| - CountAtMost(d, cut))
  {
    hide Times;
    if d == [] {
      TimesMore(cut, 0);
    } else {
      SumsAround(d[1..], cut);
      TimesMore(cut, CountAtMost(d[1..], cut));
      TimesMore(cut, |d[1..]| - CountAtMost(d[1..], cut));
    }
  }

  lemma SumsAroundCut(d: seq<int>, cut: int)
    ensures CountAtMost(d, cut) <= |d|
    ensures SumAtOrBelow(d, cut) <= cut * CountAtMost(d, cut)
    ensures Total(d) - SumAtOrBelow(d, cut) >= cut * (|d| - CountAtMost(d, cut))
  {
    SumsAround(d, cut);
  }

  lemma {:induction false} SumAboveLeast(d: seq<int>, cut: int, low: int)
    requires forall k :: 0 <= k < |d| ==> low <= d[k]
    ensures low * CountAtMost(d, cut) <= SumAtOrBelow(d, cut)
  {
    if d == [] {
    } else {
      SumAboveLeast(d[1..], cut, low);
    }
  }

  lemma CrossMultiply(a: int, b: int, m: nat, n: nat, cut: int)
    requires 0 < m <= n && a <= cut * m && b - a >= cut * (n - m)
    ensures a * n <= b * m
  {
    assert a * (n - m) <= (cut * m) * (n - m) by {
      assert (cut * m - a) * (n - m) >= 0;
    }
    assert (b - a) * m >= (cut * (n - m)) * m by {
      assert (b - a - cut * (n - m)) * m >= 0;
    }
    assert (cut * m) * (n - m) == (cut * (n - m)) * m;
  }

  lemma FractionOrder(a: int, b: int, m: nat, n: nat)
    requires m > 0 && n > 0 && a * n <= b * m
    ensures a as real / m as real <= b as real / n as real
  {
    var y := b as real / n as real;
    assert y * n as real == b as real;
    assert (a * n) as real == a as real * n as real;
    assert (b * m) as real == b as real * m as real;
    assert a as real * n as real <= (y * n as real) * m as real;
    assert (y * m as real - a as real) * n as real >= 0.0;
    DivideAtMost(a as real, y, m as real);
  }

  lemma SomeAtOrBelowCut(d: seq<int>, p: real)
    requires d != [] && 0.0 < p <= 100.0
    ensures CountAtMost(d, Percentile(SortedCopy(d), p)) > 0
  {
    PercentileHasRank(d, p);
    ScalePositive(p / 100.0, |d| as real);
  }

  lemma FractionAtLeast(low: int, a: int, n: nat)
    requires n > 0 && low * n <= a
    ensures low <= Truncate(a as real / n as real)
  {
    assert (low * n) as real == low as real * n as real;
    DivideAtLeast(a as real, low as real, n as real);
    TruncateMonotone(low as real, a as real / n as real);
  }

  /** The trimmed mean lies between the least sample and the plain mean. */
  lemma TrimmedMeanBetween(d: seq<int>, p: real, low: int)
    requires d != [] && 0.0 < p <= 100.0
    requires forall k :: 0 <= k < |d| ==> low <= d[k]
    ensures low <= TrimmedMeanOf(d, p) <= MeanDuration(d)
  {
    var cut := Percentile(SortedCopy(d), p);
    var n, a, b := CountAtMost(d, cut), SumAtOrBelow(d, cut), Total(d);
    SomeAtOrBelowCut(d, p);
    SumsAroundCut(d, cut);
    CrossMultiply(a, b, n, |d|, cut);
    FractionOrder(a, b, n, |d|);
    TruncateMonotone(a as real / n as real, b as real / |d| as real);
    SumAboveLeast(d, cut, low);
    FractionAtLeast(low, a, n);
  }

  // ---- Replication ----

  function Copies<T>(d: seq<T>, k: nat): seq<T> {
    if k == 0 then [] else Copies(d, k - 1) + d
  }

  lemma {:induction false} CountAppend(a: seq<int>, b: seq<int>, v: int)
    ensures CountAtMost(a + b, v) == CountAtMost(a, v) + CountAtMost(b, v)
    ensures SumAtOrBelow(a + b, v) == SumAtOrBelow(a, v) + SumAtOrBelow(b, v)
  {
    if a == [] {
      assert a + b == b;
    } else {
      CountAppend(a[1..], b, v);
      assert (a + b)[1..] == a[1..] + b;
    }
  }

  lemma {:induction false} CopiesCounted(d: seq<int>, k: nat, v: int)
    ensures CountAtMost(Copies(d, k), v) == Times(CountAtMost(d, v), k)
    ensures SumAtOrBelow(Copies(d, k), v) == Times(SumAtOrBelow(d, v), k)
    ensures |Copies(d, k)| == Times(|d|, k)
  {
    hide Times, CountAtMost, SumAtOrBelow;
    if k == 0 {
      CountNothing(v);
      TimesMore(CountAtMost(d, v), 0);
      TimesMore(SumAtOrBelow(d, v), 0);
      TimesMore(|d|, 0);
    } else {
      CopiesCounted(d, k - 1, v);
      CountAppend(Copies(d, k - 1), d, v);
      TimesMore(CountAtMost(d, v), k - 1);
      TimesMore(SumAtOrBelow(d, v), k - 1);
      TimesMore(|d|, k - 1);
    }
  }

  lemma CountNothing(v: int)
    ensures CountAtMost([], v) == 0 && SumAtOrBelow([], v) == 0
  {
  }

  lemma CountCopies(d: seq<int>, k: nat, v: int)
    ensures CountAtMost(Copies(d, k), v) == k * CountAtMost(d, v)
    ensures SumAtOrBelow(Copies(d, k), v) == k * SumAtOrBelow(d, v)
    ensures |Copies(d, k)| == k * |d|
  {
    CopiesCounted(d, k, v);
  }

  lemma ShareScales(p: real, k: nat, n: nat)
    ensures Share(p, k * n) == k as real * Share(p, n)
  {
    assert (k * n) as real == k as real * n as real;
  }

  lemma RankScales(k: nat, below: nat, x: real, upTo: nat)
    requires k > 0 && HasRank(below, upTo, x)
    ensures HasRank(k * below, k * upTo, k as real * x)
  {
    CastProduct(k, below);
    CastProduct(k, upTo);
    ScaleLess(k as real, below as real, x);
    ScaleAtMost(k as real, x, upTo as real);
  }

  lemma ShareRankScales(p: real, k: nat, below: nat, n: nat, upTo: nat)
    requires k > 0 && HasRank(below, upTo, Share(p, n))
    ensures HasRank(k * below, k * upTo, Share(p, k * n))
  {
    RankScales(k, below, Share(p, n), upTo);
    ShareScales(p, k, n);
  }

  lemma NearestRankReplicated(d: seq<int>, k: nat, p: real, v: int)
    requires k > 0 && NearestRank(d, p, v)
    ensures NearestRank(Copies(d, k), p, v)
  {
    var below, n, upTo := CountBelow(d, v), |d|, CountAtMost(d, v);
    ShareRankScales(p, k, below, n, upTo);
    NearestRankFrom(Copies(d, k), p, v, k * below, k * n, k * upTo) by {
      CountCopies(d, k, v);
      CountCopies(d, k, v - 1);
    }
  }

  lemma NearestRankFrom(d: seq<int>, p: real, v: int, below: nat, n: nat, upTo: nat)
    requires CountBelow(d, v) == below && |d| == n && CountAtMost(d, v) == upTo
    requires HasRank(below, upTo, Share(p, n))
    ensures NearestRank(d, p, v)
  {
  }

  /** Repeating every sample k times moves no percentile. */
  lemma PercentileReplicated(d: seq<int>, k: nat, p: real)
    requires d != [] && k > 0 && 0.0 < p <= 100.0
    ensures Percentile(SortedCopy(Copies(d, k)), p) == Percentile(SortedCopy(d), p)
  {
    var c := Percentile(SortedCopy(d), p);
    PercentileHasRank(d, p);
    NearestRankReplicated(d, k, p, c);
    CopiesEmpty(d, k);
    PercentileIsNearestRank(Copies(d, k), p, c);
  }

  lemma FractionReplicated(a: int, n: nat, k: nat)
    requires n > 0 && k > 0
    ensures (k * a) as real / (k * n) as real == a as real / n as real
  {
    FractionOrder(k * a, a, k * n, n);
    FractionOrder(a, k * a, n, k * n);
  }

  /** Nor does it move the trimmed mean. */
  lemma TrimmedMeanReplicated(d: seq<int>, k: nat, p: real)
    requires k > 0 && 0.0 < p <= 100.0
    ensures TrimmedMeanOf(Copies(d, k), p) == TrimmedMeanOf(d, p)
  {
    CopiesEmpty(d, k);
    if d != [] {
      var cut := Percentile(SortedCopy(d), p);
      PercentileReplicated(d, k, p);
      SomeAtOrBelowCut(d, p);
      CountCopies(d, k, cut);
      FractionReplicated(SumAtOrBelow(d, cut), CountAtMost(d, cut), k);
      assert k * CountAtMost(d, cut) > 0;
    }
  }

  // ---- Responsiveness ----

  function TLSPerRTT(s: LatencySample): int {
    if s.tlsRTTs <= 0 then 0 else Quotient(s.tls, s.tlsRTTs)
  }

  function DurationsOf(samples: seq<LatencySample>, f: LatencySample -> int): (r: seq<int>)
    ensures |r| == |samples| && forall k :: 0 <= k < |r| ==> r[k] == f(samples[k])
  {
    seq(|samples|, i requires 0 <= i < |samples| => f(samples[i]))
  }

  /** Round trips per minute of a round-trip time. */
  function RPM(rtt: int): real {
    if rtt <= 0 then 0.0 else 60000.0 / (rtt as real / MILLISECOND as real)
  }

  datatype Rates = Rates(total: real, foreign: real, self: real)

  const CONNECT: LatencySample -> int := (s: LatencySample) => s.connect
  const TLS: LatencySample -> int := (s: LatencySample) => TLSPerRTT(s)
  const HTTP: LatencySample -> int := (s: LatencySample) => s.http

  /** The round-trip time of the foreign probes: the mean of the stages that took place. */
  function ForeignRTT(tcp: int, tls: int, http: int): int {
    if tls > 0 then Quotient(tcp + tls + http, 3) else Quotient(tcp + http, 2)
  }

  function Combined(foreign: real, self: real): Rates {
    var total :=
      if foreign > 0.0 && self > 0.0 then (foreign + self) / 2.0
      else if foreign > 0.0 then foreign
      else self;
    Rates(total, foreign, self)
  }

  function ResponsivenessOf(foreign: seq<LatencySample>, self: seq<LatencySample>, tmp: real): Rates {
    Combined(
      if foreign == [] then 0.0
      else RPM(ForeignRTT(TrimmedMeanOf(DurationsOf(foreign, CONNECT), tmp),
                          TrimmedMeanOf(DurationsOf(foreign, TLS), tmp),
                          TrimmedMeanOf(DurationsOf(foreign, HTTP), tmp))),
      if self == [] then 0.0 else RPM(TrimmedMeanOf(DurationsOf(self, HTTP), tmp)))
  }

  method Responsiveness(foreign: seq<LatencySample>, self: seq<LatencySample>, tmp: real) returns (r: Rates)
    ensures r == ResponsivenessOf(foreign, self, tmp)
  {
    var foreignRPM, selfRPM := 0.0, 0.0;
    if |foreign| > 0 {
      var tcp := TrimmedMean(DurationsOf(foreign, CONNECT), tmp);
      var tls := TrimmedMean(DurationsOf(foreign, TLS), tmp);
      var http := TrimmedMean(DurationsOf(foreign, HTTP), tmp);
      foreignRPM := RPM(ForeignRTT(tcp, tls, http));
    }
    if |self| > 0 {
      var http := TrimmedMean(DurationsOf(self, HTTP), tmp);
      selfRPM := RPM(http);
    }
    r := Combined(foreignRPM, selfRPM);
  }

  lemma {:induction false} DurationsOfCopies(samples: seq<LatencySample>, k: nat, f: LatencySample -> int)
    ensures DurationsOf(Copies(samples, k), f) == Copies(DurationsOf(samples, f), k)
  {
    if k == 0 {
    } else {
      DurationsOfCopies(samples, k - 1, f);
      assert DurationsOf(Copies(samples, k - 1) + samples, f)
          == DurationsOf(Copies(samples, k - 1), f) + DurationsOf(samples, f);
    }
  }

  lemma {:induction false} CopiesEmpty<T>(d: seq<T>, k: nat)
    requires k > 0
    ensures Copies(d, k) == [] <==> d == []
  {
    if k == 1 {
    } else {
      CopiesEmpty(d, k - 1);
    }
  }

  /** k intervals with the same probe samples are exactly as responsive as one. */
  lemma ResponsivenessReplicated(foreign: seq<LatencySample>, self: seq<LatencySample>, k: nat, tmp: real)
    requires k > 0 && 0.0 < tmp <= 100.0
    ensures ResponsivenessOf(Copies(foreign, k), Copies(self, k), tmp) == ResponsivenessOf(foreign, self, tmp)
  {
    CopiesEmpty(foreign, k);
    CopiesEmpty(self, k);
    DurationsOfCopies(foreign, k, CONNECT);
    DurationsOfCopies(foreign, k, TLS);
    DurationsOfCopies(foreign, k, HTTP);
    DurationsOfCopies(self, k, HTTP);
    TrimmedMeanReplicated(DurationsOf(foreign, CONNECT), k, tmp);
    TrimmedMeanReplicated(DurationsOf(foreign, TLS), k, tmp);
    TrimmedMeanReplicated(DurationsOf(foreign, HTTP), k, tmp);
    TrimmedMeanReplicated(DurationsOf(self, HTTP), k, tmp);
  }
}
