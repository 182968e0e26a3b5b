/**
 What raising one sample does to the trimmed mean (trimmedMean in internal/engine/stats.go).
 Its cut keeps every tie, so raising a tied sample past the cut removes it from the mean,
 which may then fall; this is exactly when it does.
 */
module Trimming {
  import opened Series
  import opened Stats

  function Cut(d: seq<int>, p: real): int {
    Percentile(SortedCopy(d), p)
  }

  /** How many samples the trimmed mean keeps. */
  function KeptCount(d: seq<int>, p: real): nat {
    CountAtMost(d, Cut(d, p))
  }

  /** The trimmed mean before it is truncated to whole nanoseconds. */
  function ExactTrimmedMean(d: seq<int>, p: real): real {
    if KeptCount(d, p) == 0 then 0.0 else SumAtOrBelow(d, Cut(d, p)) as real / KeptCount(d, p) as real
  }

  lemma TruncatedMean(d: seq<int>, p: real)
    ensures TrimmedMeanOf(d, p) == Truncate(ExactTrimmedMean(d, p))
  {
    hide Percentile, SortedCopy;
  }

  lemma CutIs(d: seq<int>, p: real, v: int)
    requires d != [] && 0.0 < p <= 100.0
    ensures Cut(d, p) == v <==> CountBelow(d, v) as real < Share(p, |d|) <= CountAtMost(d, v) as real
  {
    hide Percentile, SortedCopy, Share;
    PercentileIsNearestRank(d, p, v);
  }

  // ---- Counts after raising one sample ----

  lemma {:induction false} RaisedCounts(d: seq<int>, i: nat, y: int, v: int)
    requires i < |d|
    ensures CountAtMost(d[i := y], v) == CountAtMost(d, v) - (if d[i] <= v then 1 else 0) + (if y <= v then 1 else 0)
    ensures SumAtOrBelow(d[i := y], v)
            == SumAtOrBelow(d, v) - (if d[i] <= v then d[i] else 0) + (if y <= v then y else 0)
  {
    var e := d[i := y];
    if i == 0 {
      assert e[1..] == d[1..];
    } else {
      RaisedCounts(d[1..], i - 1, y, v);
      assert e[1..] == d[1..][i - 1 := y];
    }
  }

  /** The samples above v and up to w add at least v + 1 each. */
  lemma {:induction false} SumBetween(d: seq<int>, v: int, w: int)
    requires v <= w
    ensures SumAtOrBelow(d, w) - SumAtOrBelow(d, v) >= Times(v + 1, CountAtMost(d, w) - CountAtMost(d, v))
  {
    hide Times;
    if d == [] {
      TimesMore(v + 1, 0);
    } else {
      SumBetween(d[1..], v, w);
      TimesMore(v + 1, CountAtMost(d[1..], w) - CountAtMost(d[1..], v));
    }
  }

  /** a over m is at most b over n. */
  predicate NoGreater(a: int, m: nat, b: int, n: nat) {
    a * n <= b * m
  }

  lemma FractionCompare(a: int, m: nat, b: int, n: nat)
    requires m > 0 && n > 0
    ensures a as real / m as real <= b as real / n as real <==> NoGreater(a, m, b, n)
  {
    if a * n <= b * m {
      FractionOrder(a, b, m, n);
    } else {
      FractionOrder(b, a, n, m);
      var x, y := a as real / m as real, b as real / n as real;
      assert x * m as real == a as real && y * n as real == b as real;
      CastProduct(a, n);
      CastProduct(b, m);
      assert a as real * n as real == x * (m as real * n as real);
      assert b as real * m as real == y * (m as real * n as real);
    }
  }

  // ---- The cases ----

  /** A sample above the cut, or one that stays at or below it, leaves the cut and the count as they were. */
  lemma CutStays(d: seq<int>, p: real, i: nat, y: int)
    requires d != [] && 0.0 < p <= 100.0 && i < |d| && d[i] < y
    requires d[i] > Cut(d, p) || y <= Cut(d, p)
    ensures var e := d[i := y];
            && Cut(e, p) == Cut(d, p) && KeptCount(e, p) == KeptCount(d, p)
            && SumAtOrBelow(e, Cut(e, p)) >= SumAtOrBelow(d, Cut(d, p))
  {
    hide Cut, Share;
    var cut := Cut(d, p);
    CutIs(d, p, cut);
    RaisedCounts(d, i, y, cut);
    RaisedCounts(d, i, y, cut - 1);
    CutIs(d[i := y], p, cut);
  }

  /** With a tie to spare, raising a sample past the cut drops just that sample. */
  lemma TieDropped(d: seq<int>, p: real, i: nat, y: int)
    requires d != [] && 0.0 < p <= 100.0 && i < |d| && d[i] <= Cut(d, p) < y
    ensures Cut(d[i := y], p) == Cut(d, p) <==> Share(p, |d|) <= (KeptCount(d, p) - 1) as real
    ensures Cut(d[i := y], p) == Cut(d, p) ==>
              && KeptCount(d[i := y], p) == KeptCount(d, p) - 1
              && SumAtOrBelow(d[i := y], Cut(d, p)) == SumAtOrBelow(d, Cut(d, p)) - d[i]
  {
    hide Cut, Share;
    var cut := Cut(d, p);
    CutIs(d, p, cut);
    RaisedCounts(d, i, y, cut);
    RaisedCounts(d, i, y, cut - 1);
    CutIs(d[i := y], p, cut);
  }

  /** With no tie to spare the cut moves up and no fewer samples are kept, all the new ones above the old cut. */
  lemma CutMoves(d: seq<int>, p: real, i: nat, y: int)
    requires d != [] && 0.0 < p <= 100.0 && i < |d| && d[i] <= Cut(d, p) < y
    requires Share(p, |d|) > (KeptCount(d, p) - 1) as real
    ensures var e := d[i := y];
            && KeptCount(e, p) >= KeptCount(d, p)
            && SumAtOrBelow(e, Cut(e, p)) >= SumAtOrBelow(d, Cut(d, p)) - d[i]
                                           + Times(Cut(d, p) + 1, KeptCount(e, p) - KeptCount(d, p) + 1)
  {
    hide Cut, Share, Times;
    var e, cut := d[i := y], Cut(d, p);
    CutIs(e, p, Cut(e, p));
    RaisedCounts(d, i, y, cut);
    if Cut(e, p) < cut {
      CountMonotone(e, Cut(e, p), cut);
    }
    SumBetween(e, cut, Cut(e, p));
  }

  /** Adding members above a mean raises it. */
  lemma RaisesMean(a: int, n: nat, x: int, cut: int, b: int, m: nat)
    requires 0 < n <= m && x <= cut && a <= cut * n
    requires b >= a - x + Times(cut + 1, m - n + 1)
    ensures NoGreater(a, n, b, m)
  {
    var k := m - n;
    assert (cut + 1) * (k + 1) == (cut + 1) * k + cut + 1;
    assert (cut + 1) * k >= cut * k;
    assert b >= a + cut * k;
    assert b * n >= (a + cut * k) * n;
    assert (a + cut * k) * n == a * n + cut * n * k;
    assert cut * n * k >= a * k;
    assert a * m == a * n + a * k;
  }

  lemma SameCount(a: int, b: int, n: nat)
    requires a <= b
    ensures NoGreater(a, n, b, n)
  {
    assert (b - a) * n >= 0;
  }

  lemma DroppingLowers(a: int, n: nat, x: int)
    requires n > 1
    ensures NoGreater(a, n, a - x, n - 1) <==> NoGreater(x, 1, a, n)
  {
    assert (a - x) * n == a * n - x * n;
    assert a * (n - 1) == a * n - a;
  }

  lemma KeptIsPositive(d: seq<int>, p: real)
    requires d != [] && 0.0 < p <= 100.0
    ensures KeptCount(d, p) > 0
    ensures Share(p, |d|) > 0.0
  {
    SomeAtOrBelowCut(d, p);
    ScalePositive(p / 100.0, |d| as real);
  }

  /** The sample may fall out of the mean: it is at or below the cut, is raised past it, and a tie can be spared. */
  predicate DropsOut(d: seq<int>, p: real, i: nat, y: int)
    requires i < |d|
  {
    d[i] <= Cut(d, p) < y && Share(p, |d|) <= (KeptCount(d, p) - 1) as real
  }

  lemma FallsWhenDropped(d: seq<int>, p: real, i: nat, y: int)
    requires d != [] && 0.0 < p <= 100.0 && i < |d| && DropsOut(d, p, i, y)
    ensures ExactTrimmedMean(d[i := y], p) < ExactTrimmedMean(d, p) <==> ExactTrimmedMean(d, p) < d[i] as real
  {
    hide Cut, Share, NoGreater;
    var e, n, a := d[i := y], KeptCount(d, p), SumAtOrBelow(d, Cut(d, p));
    TieDropped(d, p, i, y);
    KeptIsPositive(d, p);
    KeptIsPositive(e, p);
    DroppingLowers(a, n, d[i]);
    FractionCompare(a, n, a - d[i], n - 1);
    FractionCompare(d[i], 1, a, n);
  }

  lemma StaysUpOtherwise(d: seq<int>, p: real, i: nat, y: int)
    requires d != [] && 0.0 < p <= 100.0 && i < |d| && d[i] < y && !DropsOut(d, p, i, y)
    ensures ExactTrimmedMean(d, p) <= ExactTrimmedMean(d[i := y], p) && KeptCount(d, p) <= KeptCount(d[i := y], p)
  {
    hide Cut, Share, NoGreater, Times;
    var e := d[i := y];
    KeptIsPositive(d, p);
    KeptIsPositive(e, p);
    var a, n, b, m := SumAtOrBelow(d, Cut(d, p)), KeptCount(d, p), SumAtOrBelow(e, Cut(e, p)), KeptCount(e, p);
    if d[i] <= Cut(d, p) < y {
      CutMoves(d, p, i, y);
      SumsAroundCut(d, Cut(d, p));
      RaisesMean(a, n, d[i], Cut(d, p), b, m);
    } else {
      CutStays(d, p, i, y);
      SameCount(a, b, n);
    }
    FractionCompare(a, n, b, m);
  }

  /**
   Raising one sample lowers the trimmed mean exactly if the sample was at or below the cut,
   goes past it, lies above the trimmed mean, and the cut has a tie to spare, so that it stays.
   */
  lemma RaisingLowersExactly(d: seq<int>, p: real, i: nat, y: int)
    requires d != [] && 0.0 < p <= 100.0 && i < |d| && d[i] < y
    ensures ExactTrimmedMean(d[i := y], p) < ExactTrimmedMean(d, p) <==>
              && d[i] <= Cut(d, p) < y
              && Share(p, |d|) <= (KeptCount(d, p) - 1) as real
              && ExactTrimmedMean(d, p) < d[i] as real
    ensures d[i] <= Cut(d, p) < y ==>
              (Share(p, |d|) <= (KeptCount(d, p) - 1) as real <==> Cut(d[i := y], p) == Cut(d, p))
  {
    hide Cut, Share, ExactTrimmedMean, KeptCount;
    if d[i] <= Cut(d, p) < y {
      TieDropped(d, p, i, y);
    }
    if DropsOut(d, p, i, y) {
      FallsWhenDropped(d, p, i, y);
    } else {
      StaysUpOtherwise(d, p, i, y);
    }
  }

  /** As long as no fewer samples are kept, raising one never lowers the reported trimmed mean. */
  lemma NoFewerNotLower(d: seq<int>, p: real, i: nat, y: int)
    requires d != [] && 0.0 < p <= 100.0 && i < |d| && d[i] < y
    requires KeptCount(d[i := y], p) >= KeptCount(d, p)
    ensures TrimmedMeanOf(d, p) <= TrimmedMeanOf(d[i := y], p)
  {
    hide Cut, Share, ExactTrimmedMean, KeptCount, TrimmedMeanOf;
    if DropsOut(d, p, i, y) {
      TieDropped(d, p, i, y);
    }
    StaysUpOtherwise(d, p, i, y);
    TruncatedMean(d, p);
    TruncatedMean(d[i := y], p);
    TruncateMonotone(ExactTrimmedMean(d, p), ExactTrimmedMean(d[i := y], p));
  }

  // ---- An input ----

  lemma ThreeSamples(a: int, b: int, c: int, v: int)
    ensures CountAtMost([a, b, c], v)
            == (if a <= v then 1 else 0) + (if b <= v then 1 else 0) + (if c <= v then 1 else 0)
    ensures SumAtOrBelow([a, b, c], v)
            == (if a <= v then a else 0) + (if b <= v then b else 0) + (if c <= v then c else 0)
  {
    var one, two, three := [c], [b, c], [a, b, c];
    assert three[1..] == two && two[1..] == one && one[1..] == [];
    assert CountAtMost(one, v) == (if c <= v then 1 else 0) && SumAtOrBelow(one, v) == (if c <= v then c else 0);
    assert CountAtMost(two, v) == (if b <= v then 1 else 0) + CountAtMost(one, v);
    assert SumAtOrBelow(two, v) == (if b <= v then b else 0) + SumAtOrBelow(one, v);
  }

  /** The trimmed mean is not monotone: raising one sample past the cut drops a tie and lowers the mean. */
  lemma TrimmedMeanNotMonotone()
    ensures TrimmedMeanOf([10, 30, 30], 60.0) == 23
    ensures TrimmedMeanOf([10, 30, 40], 60.0) == 20
  {
    hide SortedCopy, Percentile;
    forall c | c == 30 || c == 40 ensures Percentile(SortedCopy([10, 30, c]), 60.0) == 30 {
      ThreeSamples(10, 30, c, 30);
      ThreeSamples(10, 30, c, 29);
      PercentileIsNearestRank([10, 30, c], 60.0, 30);
    }
    ThreeSamples(10, 30, 30, 30);
    ThreeSamples(10, 30, 40, 30);
  }
}
