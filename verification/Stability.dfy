/**
 The draft's stability criterion (internal/engine/stability.go): algorithm parameters,
 and the tracker of the moving average of one series.
 */
module Stability {
  import opened Series
  import opened Stats

  datatype Params = Params(
    mad: int,                 // MovingAverageDistance, in intervals
    interval: int,            // in nanoseconds
    trimmedMeanPercent: real,
    stdDevTolerance: real,
    initialFlows: int,
    flowIncrement: int,
    maxProbesPerSecond: int,
    probeCapacityPercent: real,
    sendBufferBytes: int,
    rampGainTolerance: real,
    changeTolerance: real)
  {
    /** The parameters as WithDefaults leaves them. */
    predicate Sane() {
      && mad >= 1 && interval >= 1
      && 0.0 < trimmedMeanPercent <= 100.0
      && stdDevTolerance > 0.0
      && initialFlows >= 1 && flowIncrement >= 1
      && maxProbesPerSecond >= 1 && probeCapacityPercent > 0.0
      && sendBufferBytes >= 0
      && rampGainTolerance != 0.0
      && changeTolerance > 0.0
    }

    /** Every field that is unset or out of range gets its default; the others are kept. */
    function WithDefaults(): (p: Params)
      ensures p.Sane()
    {
      Params(
        Positive(mad, DEFAULTS.mad),
        Positive(interval, DEFAULTS.interval),
        if trimmedMeanPercent > 100.0 then DEFAULTS.trimmedMeanPercent
        else PositiveReal(trimmedMeanPercent, DEFAULTS.trimmedMeanPercent),
        PositiveReal(stdDevTolerance, DEFAULTS.stdDevTolerance),
        Positive(initialFlows, DEFAULTS.initialFlows),
        Positive(flowIncrement, DEFAULTS.flowIncrement),
        Positive(maxProbesPerSecond, DEFAULTS.maxProbesPerSecond),
        PositiveReal(probeCapacityPercent, DEFAULTS.probeCapacityPercent),
        if sendBufferBytes < 0 then 0 else sendBufferBytes,
        if rampGainTolerance == 0.0 then DEFAULTS.rampGainTolerance else rampGainTolerance,
        PositiveReal(changeTolerance, DEFAULTS.changeTolerance))
    }
  }

  function Positive(v: int, default: int): (r: int)
    ensures default >= 1 ==> r >= 1
    ensures v >= 1 ==> r == v
  {
    if v <= 0 then default else v
  }

  function PositiveReal(v: real, default: real): (r: real)
    ensures default > 0.0 ==> r > 0.0
    ensures v > 0.0 ==> r == v
  {
    if v <= 0.0 then default else v
  }

  /** A field keeps its value exactly where it was sane; elsewhere it is the default's. */
  predicate Merged<T(==)>(given: T, default: T, sane: bool, r: T) {
    r == if sane then given else default
  }

  lemma DefaultsFieldByField(p: Params)
    ensures var r := p.WithDefaults();
            && Merged(p.mad, DEFAULTS.mad, p.mad >= 1, r.mad)
            && Merged(p.interval, DEFAULTS.interval, p.interval >= 1, r.interval)
            && Merged(p.trimmedMeanPercent, DEFAULTS.trimmedMeanPercent, 0.0 < p.trimmedMeanPercent <= 100.0,
                      r.trimmedMeanPercent)
            && Merged(p.stdDevTolerance, DEFAULTS.stdDevTolerance, p.stdDevTolerance > 0.0, r.stdDevTolerance)
            && Merged(p.initialFlows, DEFAULTS.initialFlows, p.initialFlows >= 1, r.initialFlows)
            && Merged(p.flowIncrement, DEFAULTS.flowIncrement, p.flowIncrement >= 1, r.flowIncrement)
            && Merged(p.maxProbesPerSecond, DEFAULTS.maxProbesPerSecond, p.maxProbesPerSecond >= 1,
                      r.maxProbesPerSecond)
            && Merged(p.probeCapacityPercent, DEFAULTS.probeCapacityPercent, p.probeCapacityPercent > 0.0,
                      r.probeCapacityPercent)
            && Merged(p.sendBufferBytes, DEFAULTS.sendBufferBytes, p.sendBufferBytes >= 0, r.sendBufferBytes)
            && Merged(p.rampGainTolerance, DEFAULTS.rampGainTolerance, p.rampGainTolerance != 0.0, r.rampGainTolerance)
            && Merged(p.changeTolerance, DEFAULTS.changeTolerance, p.changeTolerance > 0.0, r.changeTolerance)
  {
  }

  /** Normalising parameters twice changes nothing: exactly the sane ones are left alone. */
  lemma DefaultsIdempotent(p: Params)
    ensures p.WithDefaults() == p <==> p.Sane()
    ensures p.WithDefaults().WithDefaults() == p.WithDefaults()
  {
    DefaultsKeepSane(p.WithDefaults());
    if p.Sane() {
      DefaultsKeepSane(p);
    }
  }

  lemma DefaultsKeepSane(p: Params)
    requires p.Sane()
    ensures p.WithDefaults() == p
  {
  }

  const DEFAULTS := Params(4, SECOND, 95.0, 0.05, 1, 1, 100, 0.05, 0, 0.10, 0.25)

  // ---- The series behind a tracker ----

  /** The moving average after raw: the mean of its last mad values. */
  function MovingAverage(raw: seq<real>, mad: nat): real
    requires mad >= 1 && raw != []
  {
    Mean(Trailing(raw, mad))
  }

  /** The moving average after each value of raw. */
  function Averages(raw: seq<real>, mad: nat): (r: seq<real>)
    requires mad >= 1
    ensures |r| == |raw|
    ensures forall k :: 0 <= k < |r| ==> r[k] == MovingAverage(raw[..k + 1], mad)
  {
    seq(|raw|, i requires 0 <= i < |raw| => MovingAverage(raw[..i + 1], mad))
  }

  function CurrentOf(raw: seq<real>, mad: nat): real
    requires mad >= 1
  {
    if raw == [] then 0.0 else MovingAverage(raw, mad)
  }

  /**
   The standard deviation of the window is below the given fraction of its last value,
   which is positive. (Both sides are squared, so that no square root is needed.)
   */
  predicate Steady(window: seq<real>, tolerance: real) {
    && window != []
    && var cur := window[|window| - 1];
    && cur > 0.0
    && DeviationBelow(Variance(window), tolerance, cur)
  }

  /** A standard deviation, given by its square, is below the given fraction of a positive value. */
  predicate DeviationBelow(variance: real, tolerance: real, value: real) {
    variance < (tolerance * value) * (tolerance * value)
  }

  /** Stability of a series of raw values, judged on their moving averages. */
  predicate StableAverages(raw: seq<real>, mad: nat, tolerance: real)
    requires mad >= 1
  {
    |raw| >= mad && Steady(Trailing(Averages(raw, mad), mad), tolerance)
  }

  /** Stability of a series whose values are themselves means over mad intervals. */
  predicate StableWindowed(raw: seq<real>, mad: nat, tolerance: real)
    requires mad >= 1
  {
    |raw| >= mad && Steady(Trailing(raw, mad), tolerance)
  }

  datatype Confidence = Low | Medium | High

  function ConfidenceOf(stable: bool, pushed: nat, mad: nat): Confidence {
    if stable then High else if pushed >= mad then Medium else Low
  }

  /** Confidence is high exactly for a stable series, and low exactly while too few values are there to tell. */
  lemma ConfidenceMeans(raw: seq<real>, mad: nat, tolerance: real)
    requires mad >= 1
    ensures var a := ConfidenceOf(StableAverages(raw, mad, tolerance), |raw|, mad);
            var w := ConfidenceOf(StableWindowed(raw, mad, tolerance), |raw|, mad);
            && (a == High <==> StableAverages(raw, mad, tolerance)) && (a == Low <==> |raw| < mad)
            && (w == High <==> StableWindowed(raw, mad, tolerance)) && (w == Low <==> |raw| < mad)
  {
    hide Steady;
  }

  lemma AveragesAppend(raw: seq<real>, v: real, mad: nat)
    requires mad >= 1
    ensures Averages(raw + [v], mad) == Averages(raw, mad) + [MovingAverage(raw + [v], mad)]
  {
    hide MovingAverage;
    var r := raw + [v];
    assert r[..|r|] == r;
    forall k | 0 <= k < |raw| ensures Averages(r, mad)[k] == Averages(raw, mad)[k] {
      assert r[..k + 1] == raw[..k + 1];
    }
  }

  /**
   A new value enters the moving average with its share: as one more value while fewer than mad
   are there, and from then on in place of the oldest.
   */
  lemma AverageSlides(raw: seq<real>, v: real, mad: nat)
    requires mad >= 1
    ensures var n, before, after := |raw|, CurrentOf(raw, mad), CurrentOf(raw + [v], mad);
            if n < mad then (n + 1) as real * after == n as real * before + v
            else mad as real * after == mad as real * before + v - raw[n - mad]
  {
    hide Sum;
    var w, x := Trailing(raw, mad), Trailing(raw + [v], mad);
    if raw != [] {
      assert |w| as real * Mean(w) == Sum(w);
    }
    assert |x| as real * Mean(x) == Sum(x);
    SumMore(w, v);
    if |raw| < mad {
      assert x == w + [v];
    } else {
      SumFromFirst(w);
      SumMore(w[1..], v);
      assert x == w[1..] + [v];
    }
  }

  lemma SumMore(xs: seq<real>, v: real)
    ensures Sum(xs + [v]) == Sum(xs) + v && Sum([]) == 0.0
  {
    assert (xs + [v])[..|xs|] == xs;
  }

  lemma CurrentIsLastAverage(raw: seq<real>, mad: nat)
    requires mad >= 1 && raw != []
    ensures CurrentOf(raw, mad) == Averages(raw, mad)[|raw| - 1]
  {
    assert raw[..|raw|] == raw;
  }

  // ---- What the criterion guarantees, and what is enough for it ----

  /**
   The values of a steady window lie close together: the squared distance of any two of them is
   below 2n times the square of the tolerated fraction of its last value.
   */
  lemma SteadySpread(w: seq<real>, tolerance: real, j: nat, k: nat)
    requires Steady(w, tolerance) && j < k < |w|
    ensures var allowed := tolerance * w[|w| - 1];
            w[|w| - 1] > 0.0 && (w[j] - w[k]) * (w[j] - w[k]) < 2.0 * |w| as real * (allowed * allowed)
  {
    hide Mean, SquaredDistance, Variance;
    var m, n, v := Mean(w), |w| as real, Variance(w);
    var allowed := tolerance * w[|w| - 1];
    DistanceAtLeastTwo(w, m, j, k);
    VarianceTimes(w);
    ScaleLess(n, v, allowed * allowed);
    TwoDistances(w[j], w[k], m);
  }

  lemma VarianceTimes(w: seq<real>)
    requires w != []
    ensures |w| as real * Variance(w) == SquaredDistance(w, Mean(w))
  {
    hide Mean, SquaredDistance;
    var n, d := |w| as real, SquaredDistance(w, Mean(w));
    assert d / n * n == d;
  }

  lemma TwoDistances(x: real, y: real, m: real)
    ensures (x - y) * (x - y) <= 2.0 * ((x - m) * (x - m) + (y - m) * (y - m))
  {
    var a, b := x - m, y - m;
    assert (x - y) * (x - y) == (a - b) * (a - b) == 2.0 * (a * a + b * b) - (a + b) * (a + b);
    Square(a + b);
  }

  /** A band of positive values that is narrower than twice the tolerated deviation of its lowest. */
  predicate Close(low: real, high: real, tolerance: real) {
    0.0 < low && high - low < 2.0 * tolerance * low
  }

  /** Within a close band the deviation is tolerable, measured by any value no lower than the band. */
  lemma DeviationInBand(w: seq<real>, low: real, high: real, tolerance: real, value: real)
    requires w != [] && AllAtLeast(w, low) && AllAtMost(w, high) && Close(low, high, tolerance) && low <= value
    ensures DeviationBelow(Variance(w), tolerance, value)
  {
    hide Variance;
    var half := (high - low) / 2.0;
    VarianceInBand(w, low, high);
    assert low <= w[0] <= high;
    assert 0.0 <= half < tolerance * low;
    assert tolerance > 0.0 by {
      if tolerance <= 0.0 { ScaleAtMost(low, tolerance, 0.0); }
    }
    ScaleAtMost(tolerance, low, value);
    SquareLess(half, tolerance * value);
  }

  lemma SteadyInBand(w: seq<real>, low: real, high: real, tolerance: real)
    requires w != [] && AllAtLeast(w, low) && AllAtMost(w, high) && Close(low, high, tolerance)
    ensures Steady(w, tolerance)
  {
    hide Variance, DeviationBelow;
    assert low <= w[|w| - 1];
    DeviationInBand(w, low, high, tolerance, w[|w| - 1]);
  }

  lemma SquareLess(a: real, b: real)
    requires 0.0 <= a < b
    ensures a * a < b * b
  {
    assert b * b - a * a == (b - a) * (b + a);
    ScaleLess(b - a, 0.0, b + a);
  }

  lemma AveragesInBand(raw: seq<real>, mad: nat, low: real, high: real)
    requires mad >= 1 && AllAtLeast(raw, low) && AllAtMost(raw, high)
    ensures AllAtLeast(Averages(raw, mad), low) && AllAtMost(Averages(raw, mad), high)
    ensures raw != [] ==> low <= CurrentOf(raw, mad) <= high
  {
    hide Mean;
    var averages := Averages(raw, mad);
    forall k | 0 <= k < |raw| ensures low <= averages[k] <= high {
      MeanAtLeast(Trailing(raw[..k + 1], mad), low);
      MeanAtMost(Trailing(raw[..k + 1], mad), high);
    }
    if raw != [] {
      MeanAtLeast(Trailing(raw, mad), low);
      MeanAtMost(Trailing(raw, mad), high);
    }
  }

  /** A series that keeps to a close band is stable exactly from its mad-th value on, judged either way. */
  lemma StableInBand(raw: seq<real>, mad: nat, low: real, high: real, tolerance: real)
    requires mad >= 1 && AllAtLeast(raw, low) && AllAtMost(raw, high) && Close(low, high, tolerance)
    ensures StableAverages(raw, mad, tolerance) <==> |raw| >= mad
    ensures StableWindowed(raw, mad, tolerance) <==> |raw| >= mad
  {
    hide Steady, Close;
    if |raw| >= mad {
      AveragesInBand(raw, mad, low, high);
      SteadyInBand(Trailing(Averages(raw, mad), mad), low, high, tolerance);
      SteadyInBand(Trailing(raw, mad), low, high, tolerance);
    }
  }

  // ---- Averages, not values ----

  /** Each value repeats the one mad places before it. */
  predicate Periodic(raw: seq<real>, mad: nat) {
    forall k :: mad <= k < |raw| ==> raw[k] == raw[k - mad]
  }

  lemma {:induction false} PeriodicAverage(raw: seq<real>, mad: nat)
    requires mad >= 1 && |raw| >= mad && Periodic(raw, mad)
    ensures CurrentOf(raw, mad) == Mean(raw[..mad])
  {
    hide Mean, CurrentOf;
    if |raw| == mad {
      FullWindow(raw, mad);
      assert raw[..mad] == raw;
    } else {
      var before, v := raw[..|raw| - 1], raw[|raw| - 1];
      assert raw == before + [v] && before[..mad] == raw[..mad];
      PeriodicAverage(before, mad);
      RepeatedValue(before, v, mad);
    }
  }

  lemma FullWindow(raw: seq<real>, mad: nat)
    requires mad >= 1 && |raw| == mad
    ensures CurrentOf(raw, mad) == Mean(raw)
  {
  }

  lemma RepeatedValue(raw: seq<real>, v: real, mad: nat)
    requires mad >= 1 && |raw| >= mad && v == raw[|raw| - mad]
    ensures CurrentOf(raw + [v], mad) == CurrentOf(raw, mad)
  {
    hide CurrentOf;
    AverageSlides(raw, v, mad);
    SameTimes(mad as real, CurrentOf(raw + [v], mad), CurrentOf(raw, mad));
  }

  lemma SameTimes(n: real, x: real, y: real)
    requires n > 0.0 && n * x == n * y
    ensures x == y
  {
    if x < y { ScaleLess(n, x, y); }
    if y < x { ScaleLess(n, y, x); }
  }

  /**
   Goodput is judged on its moving averages: a pattern that repeats every mad intervals is
   stable from 2 mad - 1 values on, however far apart its values lie.
   */
  lemma PeriodicStable(raw: seq<real>, mad: nat, tolerance: real)
    requires mad >= 1 && |raw| >= 2 * mad - 1 && Periodic(raw, mad) && Mean(raw[..mad]) > 0.0 && tolerance > 0.0
    ensures StableAverages(raw, mad, tolerance)
  {
    hide Mean, Steady;
    var m, w := Mean(raw[..mad]), Trailing(Averages(raw, mad), mad);
    forall k | 0 <= k < mad ensures w[k] == m {
      var head := raw[..|raw| - mad + k + 1];
      assert head[..mad] == raw[..mad];
      PeriodicAverage(head, mad);
    }
    ScaleLess(m, 0.0, tolerance);
    SteadyInBand(w, m, m, tolerance);
  }

  /** Responsiveness is judged on its values, which are means already: the same pattern is not stable there. */
  lemma PatternNotStableWindowed()
    ensures StableAverages([50.0, 150.0, 50.0, 150.0], 2, 0.05)
    ensures !StableWindowed([50.0, 150.0, 50.0, 150.0], 2, 0.05)
  {
    var raw := [50.0, 150.0, 50.0, 150.0];
    assert raw[..2] == [50.0, 150.0] && [50.0, 150.0][..1] == [50.0] && [50.0][..0] == [];
    PeriodicStable(raw, 2, 0.05);
    assert Trailing(raw, 2) == [50.0, 150.0];
    if StableWindowed(raw, 2, 0.05) {
      SteadySpread([50.0, 150.0], 0.05, 0, 1);
    }
  }

  // ---- Loops ----

  method SumOf(xs: seq<real>) returns (sum: real)
    ensures sum == Sum(xs)
  {
    sum := 0.0;
    for i := 0 to |xs|
      invariant sum == Sum(xs[..i])
    {
      assert xs[..i + 1][..i] == xs[..i];
      sum := sum + xs[i];
    }
    assert xs[..|xs|] == xs;
  }

  method VarianceOf(xs: seq<real>) returns (v: real)
    ensures v == Variance(xs)
  {
    if |xs| == 0 {
      return 0.0;
    }
    var sum := SumOf(xs);
    var mean := sum / |xs| as real;
    var d := 0.0;
    for i := 0 to |xs|
      invariant d == SquaredDistance(xs[..i], mean)
    {
      assert xs[..i + 1][..i] == xs[..i];
      d := d + (xs[i] - mean) * (xs[i] - mean);
    }
    assert xs[..|xs|] == xs;
    v := d / |xs| as real;
  }

  /** The moving-average tracker of one series: goodput, or (windowed) responsiveness. */
  class Tracker {
    const mad: nat
    const tolerance: real
    const windowed: bool
    var raw: seq<real>
    var averages: seq<real>

    ghost predicate Valid()
      reads this
    {
      mad >= 1 && averages == Averages(raw, mad)
    }

    predicate IsStable()
      reads this
      requires mad >= 1
    {
      if windowed then StableWindowed(raw, mad, tolerance) else StableAverages(raw, mad, tolerance)
    }

    constructor (mad: nat, tolerance: real, windowed: bool)
      requires mad >= 1
      ensures Valid() && raw == []
      ensures this.mad == mad && this.tolerance == tolerance && this.windowed == windowed
    {
      this.mad, this.tolerance, this.windowed := mad, tolerance, windowed;
      raw, averages := [], [];
    }

    method Push(v: real) returns (avg: real)
      requires Valid()
      modifies this
      ensures Valid() && raw == old(raw) + [v]
      ensures averages == old(averages) + [avg]
      ensures avg == CurrentOf(raw, mad)
    {
      AveragesAppend(raw, v, mad);
      raw := raw + [v];
      var start := if |raw| - mad < 0 then 0 else |raw| - mad;
      var sum := SumOf(raw[start..]);
      assert raw[start..] == Trailing(raw, mad);
      avg := sum / (|raw| - start) as real;
      averages := averages + [avg];
    }

    method Current() returns (cur: real)
      requires Valid()
      ensures cur == CurrentOf(raw, mad)
    {
      if |averages| == 0 {
        return 0.0;
      }
      CurrentIsLastAverage(raw, mad);
      cur := averages[|averages| - 1];
    }

    method Stable() returns (stable: bool)
      requires Valid()
      ensures stable == IsStable()
    {
      if |averages| < mad {
        return false;
      }
      var series := if windowed then raw else averages;
      var window := series[|series| - mad..];
      assert window == Trailing(series, mad);
      var cur := series[|series| - 1];
      if cur <= 0.0 {
        return false;
      }
      var v := VarianceOf(window);
      stable := DeviationBelow(v, tolerance, cur);
    }

    method Confidence() returns (c: Confidence)
      requires Valid()
      ensures c == ConfidenceOf(IsStable(), |raw|, mad)
    {
      var stable := Stable();
      if stable {
        return High;
      }
      c := if |raw| >= mad then Medium else Low;
    }
  }
}
