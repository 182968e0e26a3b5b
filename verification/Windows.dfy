/**
 What the reported lower bound and the change detector guarantee, over every history:
 the window behind a bound, and what a restart cuts off.
 */
module Windows {
  import opened Series
  import opened Stats
  import opened Stability
  import opened Engine
  import opened History
  import opened Steps

  /** Interval i of h took place and was not a drain interval. */
  predicate IsMeasured(c: Config, h: seq<Observation>, i: int)
    requires c.p.Sane()
  {
    1 <= i <= |h| && !Drained(c, h[..i])
  }

  lemma {:induction false} MeasuredMeaning(c: Config, h: seq<Observation>, from: int, i: int)
    requires c.p.Sane()
    ensures i in MeasuredFrom(c, h, from) <==> from <= i && IsMeasured(c, h, i)
  {
    hide Drained;
    if h == [] {
    } else {
      MeasuredMeaning(c, Past(h), from, i);
      assert h[..|h|] == h;
      if 1 <= i < |h| {
        assert Past(h)[..i] == h[..i];
      }
    }
  }

  /** The goodputs of the mad intervals from start on. */
  function WindowGoodputs(c: Config, h: seq<Observation>, start: int): (r: seq<real>)
    requires c.p.Sane() && 1 <= start && start + c.p.mad - 1 <= |h|
    ensures |r| == c.p.mad
    ensures forall k :: 0 <= k < |r| ==> r[k] == GoodputAt(c, h, start + k)
  {
    seq(c.p.mad, k requires 0 <= k < c.p.mad => GoodputAt(c, h, start + k))
  }

  /** low is the least of w, and no further below its mean than its spread allows. */
  predicate LowOf(w: seq<real>, low: real, tolerance: real)
    requires w != []
  {
    && low in w && AllAtLeast(w, low)
    && low <= Mean(w)
    && Near(low, Mean(w), |w|, tolerance)
  }

  /** The square of the distance from x to the mean is below n times the square of the tolerated deviation. */
  predicate Near(x: real, mean: real, n: nat, tolerance: real) {
    (mean - x) * (mean - x) < n as real * ((tolerance * mean) * (tolerance * mean))
  }

  /** b describes mad consecutive measured intervals, none before the given one. */
  predicate Qualified(c: Config, h: seq<Observation>, from: int, b: Bound)
    requires c.p.Sane()
  {
    && b.intervals == c.p.mad
    && from <= b.start && 1 <= b.start && b.start + c.p.mad - 1 <= |h|
    && (forall i :: b.start <= i < b.start + c.p.mad ==> IsMeasured(c, h, i))
    && LowOf(WindowGoodputs(c, h, b.start), b.low, c.p.stdDevTolerance)
    && b.rpm == ResponsivenessOf(Flatten(ForeignOf(h)[b.start - 1..b.start - 1 + c.p.mad]),
                                 Flatten(SelfOf(h)[b.start - 1..b.start - 1 + c.p.mad]),
                                 c.p.trimmedMeanPercent).total
  }

  lemma {:induction false} Consecutive(idx: seq<int>, j: nat, k: nat)
    requires j <= k < |idx| && forall a, b :: 0 <= a < b < |idx| ==> idx[a] < idx[b]
    ensures idx[k] - idx[j] >= k - j
  {
    if j == k {
    } else {
      Consecutive(idx, j, k - 1);
    }
  }

  /** The n consecutive numbers from start on. */
  function RunFrom(start: int, n: nat): (r: seq<int>)
    ensures |r| == n && forall k :: 0 <= k < n ==> r[k] == start + k
  {
    seq(n, k => start + k)
  }

  /** Strictly increasing interval numbers that span no more than their count leave none out. */
  lemma SpanIsRun(idx: seq<int>, n: nat)
    requires 1 <= n <= |idx| && forall a, b :: 0 <= a < b < |idx| ==> idx[a] < idx[b]
    requires idx[|idx| - 1] - idx[|idx| - n] == n - 1
    ensures Trailing(idx, n) == RunFrom(idx[|idx| - n], n)
  {
    var t, r := Trailing(idx, n), RunFrom(idx[|idx| - n], n);
    forall k | 0 <= k < n ensures t[k] == r[k] {
      Consecutive(idx, |idx| - n, |idx| - n + k);
      Consecutive(idx, |idx| - n + k, |idx| - 1);
    }
  }

  lemma WindowOfRun(c: Config, h: seq<Observation>, from: int, start: int, idx: seq<int>, g: seq<real>)
    requires c.p.Sane() && idx == MeasuredFrom(c, h, from) && g == GoodputsFrom(c, h, from)
    requires 1 <= start && start + c.p.mad - 1 <= |h|
    requires |idx| >= c.p.mad && Trailing(idx, c.p.mad) == RunFrom(start, c.p.mad)
    ensures Trailing(g, c.p.mad) == WindowGoodputs(c, h, start)
  {
    hide GoodputAt, MeasuredFrom;
    var n := c.p.mad;
    var w, t := Trailing(g, n), Trailing(idx, n);
    forall k | 0 <= k < n ensures w[k] == GoodputAt(c, h, start + k) {
      assert t[k] == start + k;
      assert w[k] == g[|g| - n + k] && t[k] == idx[|idx| - n + k];
    }
  }

  lemma SustainedLow(p: Params, w: seq<real>)
    requires p.Sane() && w != [] && Mean(w) > 0.0 && DeviationBelow(Variance(w), p.stdDevTolerance, Mean(w))
    ensures LowOf(w, Least(w), p.stdDevTolerance)
  {
    hide Near, DeviationBelow, Mean, Variance, Least;
    LeastIsLeast(w);
    MeanAtLeast(w, Least(w));
    var k :| 0 <= k < |w| && w[k] == Least(w);
    MemberNear(w, k, p.stdDevTolerance);
  }

  lemma MemberNear(w: seq<real>, k: nat, tolerance: real)
    requires k < |w| && DeviationBelow(Variance(w), tolerance, Mean(w))
    ensures Near(w[k], Mean(w), |w|, tolerance)
  {
    hide Near, DeviationBelow, Mean, Variance;
    MemberNearMean(w, k);
    NearMeanScaled(w[k], Mean(w), Variance(w), |w|, tolerance);
  }

  lemma NearMeanScaled(x: real, mean: real, variance: real, n: nat, tolerance: real)
    requires n > 0 && (x - mean) * (x - mean) <= variance * n as real && DeviationBelow(variance, tolerance, mean)
    ensures Near(x, mean, n, tolerance)
  {
    ScaleLess(n as real, variance, (tolerance * mean) * (tolerance * mean));
    assert (mean - x) * (mean - x) == (x - mean) * (x - mean);
  }

  /** The window that made a bound is the run of intervals its fields name. */
  lemma SustainedRun(c: Config, h: seq<Observation>, from: int, idx: seq<int>, g: seq<real>)
    requires c.p.Sane() && idx == MeasuredFrom(c, h, from) && g == GoodputsFrom(c, h, from)
    requires |idx| >= c.p.mad && idx[|idx| - 1] - idx[|idx| - c.p.mad] == c.p.mad - 1
    ensures var start := idx[|idx| - c.p.mad];
            && from <= start && 1 <= start && start + c.p.mad - 1 == idx[|idx| - 1] <= |h|
            && (forall i :: start <= i < start + c.p.mad ==> IsMeasured(c, h, i))
            && Trailing(g, c.p.mad) == WindowGoodputs(c, h, start)
  {
    hide IsMeasured, GoodputAt, MeasuredFrom, GoodputsFrom;
    var n := c.p.mad;
    var start := idx[|idx| - n];
    SpanIsRun(idx, n);
    WindowOfRun(c, h, from, start, idx, g);
    forall i | start <= i < start + n ensures IsMeasured(c, h, i) {
      assert Trailing(idx, n)[i - start] == i;
      MeasuredMeaning(c, h, from, i);
    }
  }

  lemma QualifiedNow(c: Config, h: seq<Observation>, from: int, idx: seq<int>, g: seq<real>)
    requires c.p.Sane() && idx == MeasuredFrom(c, h, from) && g == GoodputsFrom(c, h, from)
    requires |g| == |idx| && Ascending(idx, from, |h|) && Sustained(c.p, g, idx)
    ensures Qualified(c, h, from, BoundOf(c.p, g, idx, ForeignOf(h), SelfOf(h)))
  {
    hide IsMeasured, LowOf, ResponsivenessOf, DeviationBelow, Variance, Mean, Least, GoodputsFrom, MeasuredFrom;
    SustainedRun(c, h, from, idx, g);
    SustainedLow(c.p, Trailing(g, c.p.mad));
  }

  lemma WindowLater(c: Config, h: seq<Observation>, start: int)
    requires c.p.Sane() && h != [] && 1 <= start && start + c.p.mad - 1 <= |Past(h)|
    ensures WindowGoodputs(c, h, start) == WindowGoodputs(c, Past(h), start)
  {
    hide Rate, Elapsed;
    var a, b := WindowGoodputs(c, h, start), WindowGoodputs(c, Past(h), start);
    forall k | 0 <= k < c.p.mad ensures a[k] == b[k] {
      assert GoodputAt(c, h, start + k) == GoodputAt(c, Past(h), start + k);
    }
  }

  lemma SamplesLater(h: seq<Observation>, i: nat, j: nat)
    requires h != [] && i <= j <= |Past(h)|
    ensures ForeignOf(h)[i..j] == ForeignOf(Past(h))[i..j] && SelfOf(h)[i..j] == SelfOf(Past(h))[i..j]
  {
  }

  lemma QualifiedLater(c: Config, h: seq<Observation>, from: int, b: Bound)
    requires c.p.Sane() && h != [] && Qualified(c, Past(h), from, b)
    ensures Qualified(c, h, from, b)
  {
    hide Drained, LowOf, ResponsivenessOf, WindowGoodputs, ForeignOf, SelfOf;
    forall i | b.start <= i < b.start + c.p.mad ensures IsMeasured(c, h, i) {
      assert IsMeasured(c, Past(h), i);
      assert Past(h)[..i] == h[..i];
    }
    WindowLater(c, h, b.start);
    SamplesLater(h, b.start - 1, b.start - 1 + c.p.mad);
  }

  lemma {:induction false} LatestQualified(c: Config, h: seq<Observation>, from: int)
    requires c.p.Sane()
    ensures LatestBound(c, h, from) == NO_BOUND || Qualified(c, h, from, LatestBound(c, h, from))
  {
    hide Drained, Sustained, Qualified, BoundOf, GoodputsFrom, MeasuredFrom;
    if h == [] {
    } else {
      LatestQualified(c, Past(h), from);
      if Sustained(c.p, GoodputsFrom(c, h, from), MeasuredFrom(c, h, from)) {
        QualifiedNow(c, h, from, MeasuredFrom(c, h, from), GoodputsFrom(c, h, from));
      }
      if LatestBound(c, Past(h), from) != NO_BOUND {
        QualifiedLater(c, h, from, LatestBound(c, Past(h), from));
      }
    }
  }

  /** The peak is the largest goodput of any measured interval. */
  lemma {:induction false} PeakIsLargest(c: Config, h: seq<Observation>, i: int)
    requires c.p.Sane() && IsMeasured(c, h, i)
    ensures GoodputAt(c, h, i) <= PeakOf(c, h)
  {
    hide Drained, Rate, Elapsed;
    assert h[..|h|] == h;
    if i == |h| {
    } else {
      assert Past(h)[..i] == h[..i];
      PeakIsLargest(c, Past(h), i);
    }
  }

  /** The peak is reached: by some measured interval, or it is still zero. */
  lemma {:induction false} PeakIsReached(c: Config, h: seq<Observation>) returns (i: int)
    requires c.p.Sane() && PeakOf(c, h) != 0.0
    ensures IsMeasured(c, h, i) && GoodputAt(c, h, i) == PeakOf(c, h)
  {
    hide Drained, Rate, Elapsed;
    assert h[..|h|] == h;
    if !Drained(c, h) && GoodputAt(c, h, |h|) > PeakOf(c, Past(h)) {
      i := |h|;
    } else {
      i := PeakIsReached(c, Past(h));
      assert Past(h)[..i] == h[..i];
    }
  }

  lemma BoundAndPeak(c: Config, h: seq<Observation>)
    requires c.p.Sane()
    ensures After(c, h).lb == LatestBound(c, h, LastRestart(c, h)) && After(c, h).peak == PeakOf(c, h)
  {
    hide After, LastRestart, LatestBound, PeakOf, Counted, Tracks, Ramping, Responds, FirstStable;
    OnlineEqualsOffline(c, h);
  }

  /**
   Lower-bound quality. A reported bound spans exactly mad consecutive measured intervals
   since the last restart; it is their least goodput, close below their mean; its
   responsiveness is that of exactly their samples; and it never exceeds the peak.
   */
  lemma BoundQuality(c: Config, h: seq<Observation>)
    requires c.p.Sane() && After(c, h).lb != NO_BOUND
    ensures var s := After(c, h);
            Qualified(c, h, LastRestart(c, h), s.lb) && s.lb.low <= s.peak
  {
    hide After, Drained, LatestBound, LastRestart, IsMeasured, GoodputAt, PeakOf, ResponsivenessOf, Near, Mean;
    BoundAndPeak(c, h);
    LatestQualified(c, h, LastRestart(c, h));
    var b := After(c, h).lb;
    var w := WindowGoodputs(c, h, b.start);
    var k :| 0 <= k < |w| && w[k] == b.low;
    PeakIsLargest(c, h, b.start + k);
  }

  /** The last mad intervals were measured, none of them before the given one. */
  predicate WindowMeasured(c: Config, h: seq<Observation>, from: int)
    requires c.p.Sane()
  {
    && |h| >= c.p.mad && from <= |h| - c.p.mad + 1
    && forall i :: |h| - c.p.mad + 1 <= i <= |h| ==> IsMeasured(c, h, i)
  }

  lemma WindowIsTail(c: Config, h: seq<Observation>, from: int)
    requires c.p.Sane() && WindowMeasured(c, h, from)
    ensures var idx, g, start := MeasuredFrom(c, h, from), GoodputsFrom(c, h, from), |h| - c.p.mad + 1;
            && |g| == |idx| >= c.p.mad && idx[|idx| - c.p.mad] == start && idx[|idx| - 1] == |h|
            && Trailing(g, c.p.mad) == WindowGoodputs(c, h, start)
  {
    hide IsMeasured, GoodputAt, MeasuredFrom;
    var n, start, idx := c.p.mad, |h| - c.p.mad + 1, MeasuredFrom(c, h, from);
    forall i | start <= i < start + n ensures i in idx {
      MeasuredMeaning(c, h, from, i);
    }
    TailRun(idx, start, n);
    WindowOfRun(c, h, from, start, idx, GoodputsFrom(c, h, from));
    assert Trailing(idx, n)[0] == start && Trailing(idx, n)[n - 1] == |h|;
  }

  /** A sustained window that ends with a measured interval is the latest bound. */
  lemma LatestBoundNow(c: Config, h: seq<Observation>, from: int)
    requires c.p.Sane() && h != [] && from <= |h| && IsMeasured(c, h, |h|)
    requires Sustained(c.p, GoodputsFrom(c, h, from), MeasuredFrom(c, h, from))
    ensures var b, g, idx := LatestBound(c, h, from), GoodputsFrom(c, h, from), MeasuredFrom(c, h, from);
            b.low == Least(Trailing(g, c.p.mad)) && b.start == idx[|idx| - c.p.mad] && b.intervals == c.p.mad
  {
    hide Drained, GoodputsFrom, MeasuredFrom, Least, Mean, Variance, DeviationBelow, ResponsivenessOf, Flatten;
    assert h[..|h|] == h;
  }

  /**
   A lower bound is formed as soon as there is ground for one: when the last mad intervals were
   all measured since the last restart and their goodputs agree, the bound is the least of them.
   */
  lemma BoundForms(c: Config, h: seq<Observation>, low: real, high: real)
    requires c.p.Sane() && WindowMeasured(c, h, LastRestart(c, h)) && Close(low, high, c.p.stdDevTolerance)
    requires var w := WindowGoodputs(c, h, |h| - c.p.mad + 1); AllAtLeast(w, low) && AllAtMost(w, high)
    ensures var b, w := After(c, h).lb, WindowGoodputs(c, h, |h| - c.p.mad + 1);
            b.start == |h| - c.p.mad + 1 && b.intervals == c.p.mad && b.low in w && AllAtLeast(w, b.low)
  {
    hide After, IsMeasured, GoodputAt, MeasuredFrom, GoodputsFrom, LastRestart, PeakOf, Mean, Variance;
    hide DeviationBelow, Least, LatestBound, Close;
    var r, w := LastRestart(c, h), WindowGoodputs(c, h, |h| - c.p.mad + 1);
    BoundAndPeak(c, h);
    WindowIsTail(c, h, r);
    BandSustained(c.p, GoodputsFrom(c, h, r), MeasuredFrom(c, h, r), low, high);
    LatestBoundNow(c, h, r);
    LeastIsLeast(w);
  }

  lemma BandSustained(p: Params, g: seq<real>, idx: seq<int>, low: real, high: real)
    requires p.Sane() && |g| == |idx| >= p.mad && idx[|idx| - 1] - idx[|idx| - p.mad] == p.mad - 1
    requires AllAtLeast(Trailing(g, p.mad), low) && AllAtMost(Trailing(g, p.mad), high)
    requires Close(low, high, p.stdDevTolerance)
    ensures Sustained(p, g, idx)
  {
    hide Mean, Variance, DeviationBelow;
    var w := Trailing(g, p.mad);
    MeanAtLeast(w, low);
    DeviationInBand(w, low, high, p.stdDevTolerance, Mean(w));
  }

  function MovingAverageOf(c: Config, s: EngineState): real
    requires c.p.Sane()
  {
    CurrentOf(s.tpRaw, c.p.mad)
  }

  /** A bound whose window ends with the latest interval lies at or below the moving average. */
  lemma FreshBoundBelowAverage(c: Config, h: seq<Observation>)
    requires c.p.Sane() && After(c, h).lb != NO_BOUND
    requires After(c, h).lb.start + c.p.mad - 1 == |h|
    ensures After(c, h).lb.low <= MovingAverageOf(c, After(c, h))
  {
    hide After, Drained, LatestBound, IsMeasured, ResponsivenessOf, Mean;
    OnlineEqualsOffline(c, h);
    BoundQuality(c, h);
    var r := LastRestart(c, h);
    AverageOfRun(c, h, r, After(c, h).lb.start, MeasuredFrom(c, h, r), GoodputsFrom(c, h, r));
  }

  lemma AverageOfRun(c: Config, h: seq<Observation>, from: int, start: int, idx: seq<int>, g: seq<real>)
    requires c.p.Sane() && idx == MeasuredFrom(c, h, from) && g == GoodputsFrom(c, h, from)
    requires from <= start && 1 <= start && start + c.p.mad - 1 == |h|
    requires forall i :: start <= i < start + c.p.mad ==> IsMeasured(c, h, i)
    ensures g != [] && CurrentOf(g, c.p.mad) == Mean(WindowGoodputs(c, h, start))
  {
    hide IsMeasured, GoodputAt, Mean, MeasuredFrom, GoodputsFrom;
    var n := c.p.mad;
    forall i | start <= i < start + n ensures i in idx {
      MeasuredMeaning(c, h, from, i);
    }
    TailRun(idx, start, n);
    WindowOfRun(c, h, from, start, idx, g);
  }

  /** idx is strictly increasing, ends no later than start + n - 1, and holds every number from start up to there. */
  predicate Covers(idx: seq<int>, start: int, n: nat) {
    && (forall a, b :: 0 <= a < b < |idx| ==> idx[a] < idx[b])
    && (forall i :: start <= i < start + n ==> i in idx)
    && (forall k :: 0 <= k < |idx| ==> idx[k] <= start + n - 1)
  }

  lemma CoversLast(idx: seq<int>, start: int, n: nat)
    requires n >= 1 && Covers(idx, start, n)
    ensures idx != [] && idx[|idx| - 1] == start + n - 1 && Covers(idx[..|idx| - 1], start, n - 1)
  {
    var last := start + n - 1;
    assert last in idx;
    var rest := idx[..|idx| - 1];
    assert idx == rest + [idx[|idx| - 1]];
    forall i | start <= i < start + (n - 1) ensures i in rest {
      assert i in idx;
    }
  }

  /** An increasing sequence that covers a run and ends with it has it as its tail. */
  lemma {:induction false} TailRun(idx: seq<int>, start: int, n: nat)
    requires Covers(idx, start, n)
    ensures |idx| >= n && Trailing(idx, n) == RunFrom(start, n)
  {
    hide Covers;
    if n == 0 {
      assert Trailing(idx, 0) == [] && RunFrom(start, 0) == [];
    } else {
      CoversLast(idx, start, n);
      var rest := idx[..|idx| - 1];
      TailRun(rest, start, n - 1);
      assert Trailing(idx, n) == Trailing(rest, n - 1) + [start + n - 1];
      assert RunFrom(start, n) == RunFrom(start, n - 1) + [start + n - 1];
    }
  }

  // ---- What the running figures are computed from ----

  /** The throughput a decision carries is the moving average of the state it leaves. */
  lemma ThroughputIsAverage(c: Config, h: seq<Observation>)
    requires c.p.Sane() && h != []
    ensures Decided(c, h).throughput == MovingAverageOf(c, After(c, h))
  {
    hide WellFormed, Measured, Latched, Goodput, Drains, Holds, WindowRPM, StableWindowed, CurrentOf, Responded, Ramped;
    var s, o := After(c, Past(h)), h[|h| - 1];
    StepFields(c, s, o);
    LatchedSeries(c.p, Measured(c.p, s, o));
  }

  /**
   The throughput of each decision is the moving average, which a measured interval enters with
   its share: as one more value at first, later in place of the one mad values back.
   */
  lemma ThroughputSlides(c: Config, h: seq<Observation>)
    requires c.p.Sane() && h != [] && !Drained(c, h) && !Restarts(c, h)
    ensures var g := GoodputsFrom(c, Past(h), LastRestart(c, h));
            var n, before, after := |g|, MovingAverageOf(c, After(c, Past(h))), Decided(c, h).throughput;
            if n < c.p.mad then (n + 1) as real * after == n as real * before + GoodputAt(c, h, |h|)
            else c.p.mad as real * after == c.p.mad as real * before + GoodputAt(c, h, |h|) - g[n - c.p.mad]
  {
    hide Drained, Restarts, GoodputAt, After, Decided, GoodputsFrom, MeasuredFrom, CurrentOf;
    var r := LastRestart(c, h);
    assert r == LastRestart(c, Past(h));
    SeriesOnline(c, Past(h));
    SeriesOnline(c, h);
    ThroughputIsAverage(c, h);
    SeriesStep(c, h, r);
    AverageSlides(GoodputsFrom(c, Past(h), r), GoodputAt(c, h, |h|), c.p.mad);
  }

  /** Under working conditions the decision's responsiveness is that of all samples of the last mad intervals. */
  lemma ResponseWindow(c: Config, h: seq<Observation>)
    requires c.p.Sane() && h != []
    ensures var from := if |h| < c.p.mad then 0 else |h| - c.p.mad;
            Decided(c, h).rpm
            == if RampOver(c, Past(h)) || StableSince(c, h) != 0 then
                 ResponsivenessOf(Flatten(ForeignOf(h)[from..]), Flatten(SelfOf(h)[from..]),
                                  c.p.trimmedMeanPercent).total
               else 0.0
  {
    hide Drained, After, Decided, GoodputsFrom, CurrentOf, Stops, Added, RampOver, StableSince, ResponsivenessOf;
    hide RPMs, StableWindowed, Held, Flatten;
    EngineIsItsHistory(c, h);
  }

  // ---- Change detection ----

  /** Every goodput measured since the last restart lies in [low, high]. */
  predicate InBand(c: Config, h: seq<Observation>, from: int, low: real, high: real)
    requires c.p.Sane()
  {
    AllAtLeast(GoodputsFrom(c, h, from), low) && AllAtMost(GoodputsFrom(c, h, from), high)
  }

  /** The band from low to high is no wider than the change tolerance. */
  predicate Narrow(low: real, high: real, tolerance: real) {
    0.0 <= low && low >= (1.0 - tolerance) * high
  }

  lemma WithinToleranceOfAverage(low: real, high: real, average: real, g: real, tolerance: real)
    requires low <= average <= high && low <= g
    requires tolerance > 0.0 && Narrow(low, high, tolerance)
    ensures !FellBelow(g, average, tolerance)
  {
    if tolerance <= 1.0 {
      ScaleAtMost(1.0 - tolerance, average, high);
    } else {
      ScaleAtMost(tolerance - 1.0, 0.0, average);
    }
  }

  /**
   Exactly when goodput tracking starts afresh: at a hold interval, once mad goodputs are on
   record, for a goodput below the tolerated share of the moving average. An interval that
   drains or for which flows were opened never restarts it.
   */
  lemma ChangeExactly(c: Config, h: seq<Observation>)
    requires c.p.Sane() && h != []
    ensures Restarts(c, h) <==>
              && Decided(c, h).hold && |GoodputsFrom(c, Past(h), LastRestart(c, Past(h)))| >= c.p.mad
              && GoodputAt(c, h, |h|)
                 < (1.0 - c.p.changeTolerance) * MovingAverageOf(c, After(c, Past(h)))
    ensures Drained(c, h) || Added(c, Past(h)) != 0 ==> !Restarts(c, h)
  {
    hide Drained, GoodputAt, After, Decided, GoodputsFrom, MeasuredFrom, CurrentOf, Added, LastRestart;
    SeriesOnline(c, Past(h));
    HoldOnline(c, h);
  }

  lemma HoldOnline(c: Config, h: seq<Observation>)
    requires c.p.Sane() && h != []
    ensures Decided(c, h).hold == Held(c, h)
  {
    hide VerdictOf, StateOf, Decided, Held;
    EngineIsItsHistory(c, h);
    HeldIsReported(c, h);
  }

  lemma HeldIsReported(c: Config, h: seq<Observation>)
    requires c.p.Sane() && h != []
    ensures VerdictOf(c, h).hold == Held(c, h)
  {
    hide Held;
  }

  /** No change is detected while the goodputs since the last restart stay within the tolerance of each other. */
  lemma NoFalseChange(c: Config, h: seq<Observation>, low: real, high: real)
    requires c.p.Sane() && h != [] && Narrow(low, high, c.p.changeTolerance)
    requires InBand(c, Past(h), LastRestart(c, Past(h)), low, high)
    requires low <= GoodputAt(c, h, |h|)
    ensures !Restarts(c, h) && LastRestart(c, h) == LastRestart(c, Past(h))
  {
    hide Drained, GoodputAt, FellBelow, Mean, Narrow, GoodputsFrom;
    var raw := GoodputsFrom(c, Past(h), LastRestart(c, Past(h)));
    if |raw| >= c.p.mad {
      MeanAtLeast(Trailing(raw, c.p.mad), low);
      MeanAtMost(Trailing(raw, c.p.mad), high);
      WithinToleranceOfAverage(low, high, CurrentOf(raw, c.p.mad), GoodputAt(c, h, |h|), c.p.changeTolerance);
    }
  }

  /**
   A real drop is detected at once: a hold interval below the tolerated share of what each of
   the last mad goodputs since the restart reached restarts the tracking.
   */
  lemma ChangeDetected(c: Config, h: seq<Observation>, low: real)
    requires c.p.Sane() && c.p.changeTolerance <= 1.0 && h != [] && Held(c, h)
    requires var g := GoodputsFrom(c, Past(h), LastRestart(c, Past(h)));
             |g| >= c.p.mad && AllAtLeast(Trailing(g, c.p.mad), low)
    requires GoodputAt(c, h, |h|) < (1.0 - c.p.changeTolerance) * low
    ensures Restarts(c, h) && LastRestart(c, h) == |h|
  {
    hide Drained, Held, GoodputAt, Mean, GoodputsFrom;
    var g := GoodputsFrom(c, Past(h), LastRestart(c, Past(h)));
    MeanAtLeast(Trailing(g, c.p.mad), low);
    ScaleAtMost(1.0 - c.p.changeTolerance, low, CurrentOf(g, c.p.mad));
  }

  /** Any number of intervals that keep to the band leave the restart point where it was. */
  lemma {:induction false} BandKeepsTracking(c: Config, h: seq<Observation>, k: nat, low: real, high: real)
    requires c.p.Sane() && k <= |h| && Narrow(low, high, c.p.changeTolerance)
    requires InBand(c, h, LastRestart(c, h[..k]), low, high)
    ensures LastRestart(c, h) == LastRestart(c, h[..k])
  {
    hide Drained, GoodputAt, Restarts, Narrow, MeasuredFrom, GoodputsFrom;
    if k == |h| {
      assert h[..k] == h;
    } else {
      var r := LastRestart(c, h[..k]);
      assert Past(h)[..k] == h[..k];
      SeriesStep(c, h, r);
      var a, b := GoodputsFrom(c, Past(h), r), GoodputsFrom(c, h, r);
      forall j | 0 <= j < |a| ensures low <= a[j] <= high {
        assert a[j] == b[j];
      }
      BandKeepsTracking(c, Past(h), k, low, high);
      if Drained(c, h) {
        assert !Restarts(c, h) by {
          if Restarts(c, h) { RestartsMeasured(c, h); }
        }
      } else {
        assert b[|b| - 1] == GoodputAt(c, h, |h|);
        NoFalseChange(c, h, low, high);
      }
    }
  }

  /** A restart is a measured interval. */
  lemma RestartsMeasured(c: Config, h: seq<Observation>)
    requires c.p.Sane() && h != [] && Restarts(c, h)
    ensures !Drained(c, h)
  {
  }

  /** A detected change makes the new goodput the moving average. */
  lemma ChangeTakesNewGoodput(c: Config, h: seq<Observation>)
    requires c.p.Sane() && h != [] && Restarts(c, h)
    ensures After(c, h).tpRaw == [GoodputAt(c, h, |h|)]
    ensures MovingAverageOf(c, After(c, h)) == GoodputAt(c, h, |h|)
  {
    hide After, Drained, GoodputAt, Restarts, MeasuredFrom, GoodputsFrom, Mean;
    SeriesOnline(c, h);
    RestartsMeasured(c, h);
    SeriesStep(c, h, |h|);
    NothingYet(c, Past(h), |h|);
    ConstantMean([GoodputAt(c, h, |h|)], GoodputAt(c, h, |h|));
  }

  lemma SeriesOnline(c: Config, h: seq<Observation>)
    requires c.p.Sane()
    ensures After(c, h).tpRaw == GoodputsFrom(c, h, LastRestart(c, h))
  {
    hide After, GoodputsFrom, MeasuredFrom, LastRestart, Counted, Judged, Ramping, Responds, PeakOf;
    OnlineEqualsOffline(c, h);
  }

  lemma {:induction false} RestartsOnlyAdvance(c: Config, h: seq<Observation>, k: nat)
    requires c.p.Sane() && k <= |h|
    ensures LastRestart(c, h[..k]) <= LastRestart(c, h)
  {
    hide Restarts;
    if k == |h| {
      assert h[..k] == h;
    } else {
      assert Past(h)[..k] == h[..k];
      RestartsOnlyAdvance(c, Past(h), k);
    }
  }

  lemma {:induction false} FirstStableFrom(c: Config, h: seq<Observation>, from: int)
    requires c.p.Sane()
    ensures FirstStable(c, h, from) == 0 || from <= FirstStable(c, h, from) <= |h|
  {
    hide GoodputsFrom;
    if h == [] {
    } else {
      FirstStableFrom(c, Past(h), from);
      if from > |h| {
        NothingYet(c, h, from);
      }
    }
  }

  /**
   Once a change was detected at interval k, nothing reported later reaches back before it:
   neither the start of the steady window nor the window of the lower bound.
   */
  lemma ChangeCutsHistory(c: Config, h: seq<Observation>, k: nat)
    requires c.p.Sane() && 1 <= k <= |h| && Restarts(c, h[..k])
    ensures var s := After(c, h);
            && (s.steadyFrom == 0 || k <= s.steadyFrom)
            && (s.lb == NO_BOUND || k <= s.lb.start)
            && (forall j :: 0 <= j < |s.holdIdx| ==> k <= s.holdIdx[j])
  {
    hide After, Restarts, LatestBound, FirstStable, MeasuredFrom, IsMeasured;
    OnlineEqualsOffline(c, h);
    RestartsOnlyAdvance(c, h, k);
    FirstStableFrom(c, h, LastRestart(c, h));
    if After(c, h).lb != NO_BOUND {
      BoundQuality(c, h);
    }
  }
}
