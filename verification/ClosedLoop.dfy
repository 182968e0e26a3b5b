/**
 The engine on the simulated path: on a link of constant capacity, without a shaper and
 without send-buffer credit, no figure it ever reports exceeds the capacity by more than
 the byte counter's truncation explains.
 */
module ClosedLoop {
  import opened Series
  import opened Stats
  import opened Stability
  import opened Engine
  import opened History
  import opened Ramp
  import opened Windows
  import opened Fluid
  import opened SimTrace
  import opened LinkSim

  // ---- Goodputs that never exceed a ceiling ----

  predicate NeverAbove(c: Config, h: seq<Observation>, ceiling: real)
    requires c.p.Sane()
  {
    forall i :: 1 <= i <= |h| ==> GoodputAt(c, h, i) <= ceiling
  }

  lemma NeverAbovePrefix(c: Config, h: seq<Observation>, n: nat, ceiling: real)
    requires c.p.Sane() && n <= |h| && NeverAbove(c, h, ceiling)
    ensures NeverAbove(c, h[..n], ceiling)
  {
    hide Rate, Elapsed;
    forall i | 1 <= i <= n ensures GoodputAt(c, h[..n], i) <= ceiling {
      assert GoodputAt(c, h[..n], i) == GoodputAt(c, h, i);
    }
  }

  lemma {:induction false} PeakBelow(c: Config, h: seq<Observation>, ceiling: real)
    requires c.p.Sane() && ceiling >= 0.0 && NeverAbove(c, h, ceiling)
    ensures PeakOf(c, h) <= ceiling
  {
    if h == [] {
    } else {
      hide Decided, GoodputAt;
      NeverAbovePrefix(c, h, |h| - 1, ceiling);
      PeakBelow(c, Past(h), ceiling);
    }
  }

  /** What an engine may report after h: moving average, peak and lower bound. */
  predicate FiguresBelow(c: Config, s: EngineState, ceiling: real)
    requires c.p.Sane()
  {
    MovingAverageOf(c, s) <= ceiling && s.peak <= ceiling && s.lb.low <= ceiling
  }

  lemma FiguresFollow(c: Config, h: seq<Observation>, ceiling: real)
    requires c.p.Sane() && ceiling >= 0.0 && NeverAbove(c, h, ceiling)
    ensures FiguresBelow(c, After(c, h), ceiling)
  {
    hide After, NeverAbove, LatestBound, PeakOf, Qualified, GoodputsFrom, LastRestart, CurrentOf;
    BoundAndPeak(c, h);
    SeriesOnline(c, h);
    PeakBelow(c, h, ceiling);
    if After(c, h).lb != NO_BOUND {
      BoundQuality(c, h);
    }
    AverageBelow(c, h, LastRestart(c, h), ceiling);
  }

  lemma AverageBelow(c: Config, h: seq<Observation>, from: int, ceiling: real)
    requires c.p.Sane() && ceiling >= 0.0 && NeverAbove(c, h, ceiling)
    ensures CurrentOf(GoodputsFrom(c, h, from), c.p.mad) <= ceiling
  {
    hide GoodputAt, MeasuredFrom, Mean;
    var g, idx := GoodputsFrom(c, h, from), MeasuredFrom(c, h, from);
    if g != [] {
      var w := Trailing(g, c.p.mad);
      forall k | 0 <= k < |w| ensures w[k] <= ceiling {
        assert w[k] == GoodputAt(c, h, idx[|idx| - |w| + k]);
      }
      MeanAtMost(w, ceiling);
    }
  }

  // ---- What the path lets through between two ticks ----

  /** The link's capacity plus one byte per interval. */
  function CapacityCeiling(link: Link, p: Params): real
    requires p.Sane()
  {
    link.capacity + OneByte(p.interval)
  }

  /** One byte per the given time, in bits per second. */
  function OneByte(elapsed: int): real
    requires elapsed > 0
  {
    8.0 / (elapsed as real / SECOND as real)
  }

  predicate Constant(link: Link) {
    link.Valid() && link.changeAt <= 0 && !link.Shaped() && link.sendBuffer == 0.0
  }

  lemma TruncatedDifference(a: real, b: real)
    requires 0.0 <= a <= b
    ensures (Truncate(b) - Truncate(a)) as real <= b - a + 1.0
  {
  }

  lemma OneByteShrinks(interval: int, elapsed: int)
    requires 0 < interval <= elapsed
    ensures OneByte(elapsed) <= OneByte(interval)
  {
    var a, b := interval as real / SECOND as real, elapsed as real / SECOND as real;
    assert 8.0 / a * a == 8.0;
    ScaleAtMost(8.0 / a, a, b);
    DivideAtMost(8.0, 8.0 / a, b);
  }

  lemma RateCeiling(bytes: int, steps: int, capacity: real)
    requires steps > 0 && bytes as real <= steps as real * PerStep(capacity) + 1.0
    ensures Rate(bytes, steps * STEP) <= capacity + OneByte(steps * STEP)
  {
    var e := (steps * STEP) as real / SECOND as real;
    assert e == steps as real * STEP_SECONDS;
    assert steps as real * PerStep(capacity) * 8.0 == capacity * e;
    assert OneByte(steps * STEP) * e == 8.0;
    DivideAtMost(bytes as real * 8.0, capacity + OneByte(steps * STEP), e);
  }

  lemma Uncredited(link: Link, steps: seq<Moved>, flows: int)
    requires link.sendBuffer == 0.0
    ensures Counter(link, steps, flows) == Delivered(steps)
  {
  }

  lemma DeliveredBetween(link: Link, steps: seq<Moved>, from: nat, to: nat)
    requires Constant(link) && Lawful(link, steps) && from <= to <= |steps|
    ensures 0.0 <= Delivered(steps[..from]) <= Delivered(steps[..to])
    ensures Delivered(steps[..to]) - Delivered(steps[..from]) <= (to - from) as real * PerStep(link.capacity)
  {
    hide PerStep, Lawful;
    var head := steps[..to];
    LawfulPrefix(link, steps, to);
    LawfulPrefix(link, steps, from);
    assert head[..from] == steps[..from];
    TotalDelivery(link, steps[..from]);
    DeliveryGrows(link, head, from);
    DeliveryBounded(link, head, from);
    ConstantCarried(link, from, to);
  }

  lemma NothingDelivered(steps: seq<Moved>)
    ensures Truncate(Delivered(steps[..0])) == 0
  {
  }

  /** Bytes counted in interval i, in terms of what the path delivered. */
  lemma BytesBetween(link: Link, c: Config, t: Trace, i: nat)
    requires c.p.Sane() && link.sendBuffer == 0.0 && Follows(link, c, t) && i < |t.h|
    ensures var from, to := StepOf(t.at, i), StepOf(t.at, i + 1);
            && 0 <= from < to <= |t.steps| && t.h[i].elapsed == (to - from) * STEP >= c.p.interval
            && BytesAt(t.h, i + 1) == Truncate(Delivered(t.steps[..to])) - Truncate(Delivered(t.steps[..from]))
  {
    hide Lawful, Driven, Truncate, Counter, Delivered;
    var from, to := StepOf(t.at, i), StepOf(t.at, i + 1);
    assert Sampled(link, c.p, t, i);
    Uncredited(link, t.steps[..to], t.h[i].flows);
    if i == 0 {
      NothingDelivered(t.steps);
    } else {
      assert Sampled(link, c.p, t, i - 1);
      Uncredited(link, t.steps[..from], t.h[i - 1].flows);
    }
  }

  lemma GoodputCeiling(link: Link, c: Config, t: Trace, i: nat)
    requires c.p.Sane() && Constant(link) && Follows(link, c, t) && i < |t.h|
    ensures GoodputAt(c, t.h, i + 1) <= CapacityCeiling(link, c.p)
  {
    hide Lawful, Driven, PerStep, OneByte, Rate, Truncate, Counter, Delivered, BytesAt, Sampled;
    var from, to := StepOf(t.at, i), StepOf(t.at, i + 1);
    BytesBetween(link, c, t, i);
    DeliveredBetween(link, t.steps, from, to);
    TruncatedDifference(Delivered(t.steps[..from]), Delivered(t.steps[..to]));
    RateCeiling(BytesAt(t.h, i + 1), to - from, link.capacity);
    OneByteShrinks(c.p.interval, (to - from) * STEP);
  }

  lemma CeilingNonNegative(link: Link, p: Params)
    requires p.Sane() && link.Valid()
    ensures CapacityCeiling(link, p) >= 0.0
  {
    DivideAtLeast(8.0, 0.0, p.interval as real / SECOND as real);
  }

  /**
   The closed loop never over-reports: after every tick of a simulated phase, the moving
   average, the peak and the lower bound stay at or below the capacity plus one byte per
   interval, whatever the jitter, the round trip, the buffer and the number of flows.
   */
  lemma NeverOverReports(link: Link, c: Config, t: Trace, n: nat)
    requires c.p.Sane() && Constant(link) && Follows(link, c, t) && n <= |t.h|
    ensures FiguresBelow(c, After(c, t.h[..n]), CapacityCeiling(link, c.p))
    ensures n > 0 ==> Decided(c, t.h[..n]).throughput <= CapacityCeiling(link, c.p)
  {
    hide Follows, After, Decided, CapacityCeiling, GoodputAt;
    var ceiling := CapacityCeiling(link, c.p);
    forall i | 1 <= i <= |t.h| ensures GoodputAt(c, t.h, i) <= ceiling {
      GoodputCeiling(link, c, t, i - 1);
    }
    CeilingNonNegative(link, c.p);
    NeverAbovePrefix(c, t.h, n, ceiling);
    FiguresFollow(c, t.h[..n], ceiling);
    if n > 0 {
      ThroughputIsAverage(c, t.h[..n]);
    }
  }

  /** The same of a run's outcome: every reported average, and the summary's three figures. */
  lemma OutcomeNeverOverReports(link: Link, c: Config, t: Trace, out: Outcome,
                                curF: seq<LatencySample>, curS: seq<LatencySample>)
    requires c.p.Sane() && Constant(link) && Concluded(link, c, t, out)
    requires out.summary == SummaryOf(c.p, After(c, t.h), curF, curS)
    ensures AllAtMost(out.movingAverages, CapacityCeiling(link, c.p))
    ensures var s, ceiling := out.summary, CapacityCeiling(link, c.p);
            s.throughput <= ceiling && s.peak <= ceiling && s.bound.low <= ceiling
  {
    hide Follows, After, Decided, CapacityCeiling, CurrentOf, WindowOf, ResponsivenessOf;
    hide StableAverages, StableWindowed;
    hide Constant, OpenFlows, Counter, LoadedRTT, InForce;
    forall k | 0 <= k < |out.movingAverages| ensures out.movingAverages[k] <= CapacityCeiling(link, c.p) {
      NeverOverReports(link, c, t, k + 1);
    }
    assert t.h[..|t.h|] == t.h;
    NeverOverReports(link, c, t, |t.h|);
  }

  /** In every step of a run less than twice what the capacity carries arrives, however many flows are open. */
  lemma ArrivalsBounded(link: Link, env: Env, c: Config, t: Trace, d: Demand, k: nat)
    requires c.p.Sane() && env.Valid() && Offered(link, env, c, t, d) && k < |t.steps|
    requires link.CapacityAt(k) > 0.0
    ensures 0.0 <= t.steps[k].arrived < PerStep(2.0 * link.CapacityAt(k))
  {
    hide Flowing, Demanded, Sum;
    assert Asked(link, env, t, d, k);
    DemandBounded(link, link.CapacityAt(k), Ramps(link, env, d.starts[..|d.rates[k]|], k * STEP), d.rates[k]);
  }

  /** The bytes a run counts never exceed what the link could carry, its burst, and its flows' credit. */
  lemma CountedBounded(link: Link, c: Config, t: Trace)
    requires c.p.Sane() && link.Valid() && Follows(link, c, t)
    ensures Counter(link, t.steps, OpenFlows(c, t.h))
            <= Carried(link, |t.steps|) + (if link.Shaped() then link.shaperBurst else 0.0)
               + Credited(link, OpenFlows(c, t.h))
  {
    hide Carried, Credited, Driven, OpenFlows;
    TotalDelivery(link, t.steps);
  }
}
