/**
 The other side of the closed loop: once the oldest flow of a simulated phase could fill the link
 alone, the engine reports no less than the link carries, and with no bucket no more either, up to
 one byte per interval.
 */
module FullLink {
  import opened Series
  import opened Stats
  import opened Stability
  import opened Engine
  import opened History
  import opened Windows
  import opened Ramp
  import opened Fluid
  import opened SimTrace
  import opened LinkSim
  import opened ClosedLoop

  /** The slow-start rate in step k of a flow open from the beginning. */
  function OldestRamp(link: Link, env: Env, k: nat): real {
    env.curve(k * STEP, if link.rtt <= 0 then MILLISECOND else link.rtt)
  }

  /** In the given steps the oldest flow wants all of the link. */
  predicate Filled(link: Link, env: Env, from: nat, to: nat) {
    forall k :: from <= k < to ==> Wanted(link, link.capacity, OldestRamp(link, env, k)) == link.capacity
  }

  /** A link that does not change, gives no credit, and refills its bucket, if any, in full at every step. */
  predicate Settled(link: Link) {
    link.Valid() && link.changeAt <= 0 && link.sendBuffer == 0.0 && DeepEnough(link, link.capacity)
  }

  // ---- A full link arrives and is delivered ----

  lemma DuringTick(t: Trace, k: nat) returns (i: nat)
    requires k < |t.steps|
    ensures i <= |t.at| && During(t, i, k)
  {
    i := |t.at|;
    while i > 0 && k < t.at[i - 1]
      invariant i <= |t.at| && (i < |t.at| ==> k < t.at[i])
    {
      i := i - 1;
    }
  }

  lemma {:induction false} DrivenPrefix(c: Config, h: seq<Observation>, i: nat)
    requires c.p.Sane() && Driven(c, h) && i <= |h|
    ensures Driven(c, h[..i])
  {
    hide OpenFlows, Decided;
    if i == |h| {
      assert h[..i] == h;
    } else {
      DrivenPrefix(c, Past(h), i);
      assert Past(h)[..i] == h[..i];
    }
  }

  /** In every step some flow is open, and the first one has been since the beginning. */
  lemma OldestOpen(link: Link, env: Env, c: Config, t: Trace, d: Demand, k: nat)
    requires c.p.Sane() && c.maxFlows >= 1 && Driven(c, t.h) && Offered(link, env, c, t, d) && k < |t.steps|
    ensures d.rates[k] != [] && d.starts != [] && d.starts[0] == 0
  {
    hide OpenFlows, Driven, Asked, During;
    var i := DuringTick(t, k);
    DrivenPrefix(c, t.h, i);
    FlowsBounded(c, t.h[..i]);
    FlowsBounded(c, t.h);
    assert StartedAt(c, t.h, 0, 0) by { StartsOpen(c, t.h); }
  }

  lemma StartsOpen(c: Config, h: seq<Observation>)
    requires c.p.Sane() && c.maxFlows >= 1
    ensures StartedAt(c, h, 0, 0)
  {
    assert h[..0] == [];
  }

  lemma ArrivesInFull(link: Link, env: Env, c: Config, t: Trace, d: Demand, k: nat)
    requires c.p.Sane() && c.maxFlows >= 1 && env.Valid() && Settled(link) && k < |t.steps|
    requires Driven(c, t.h) && Offered(link, env, c, t, d) && Filled(link, env, k, k + 1)
    ensures t.steps[k].arrived >= PerStep(link.capacity)
  {
    hide Flowing, Demanded, Sum, Driven, Wanted, DeepEnough;
    OldestOpen(link, env, c, t, d, k);
    assert Asked(link, env, t, d, k);
    var ramps := Ramps(link, env, d.starts[..|d.rates[k]|], k * STEP);
    DemandLength(link, link.capacity, ramps, d.rates[k]);
    assert ramps[0] == OldestRamp(link, env, k);
    OldestFills(link, link.capacity, ramps, d.rates[k]);
  }

  lemma FilledIsBusy(link: Link, env: Env, c: Config, t: Trace, d: Demand, from: nat, to: nat)
    requires c.p.Sane() && c.maxFlows >= 1 && env.Valid() && Settled(link) && from <= to <= |t.steps|
    requires Driven(c, t.h) && Offered(link, env, c, t, d) && Filled(link, env, from, to) && Lawful(link, t.steps)
    ensures BusyFrom(link, t.steps, from, to)
  {
    hide Offered, Driven, Lawful, DeepEnough, PerStep, Wanted;
    forall k | from <= k < to
      ensures Backlog(t.steps, k) >= PerStep(link.CapacityAt(k)) && DeepEnough(link, link.CapacityAt(k))
    {
      ArrivesInFull(link, env, c, t, d, k);
      StepRules(link, t.steps, k);
    }
  }

  // ---- Goodput of a full interval ----

  lemma TruncatedIncrease(a: real, b: real)
    requires 0.0 <= a <= b
    ensures (Truncate(b) - Truncate(a)) as real >= b - a - 1.0
  {
  }

  lemma RateFloor(bytes: int, steps: int, capacity: real)
    requires steps > 0 && bytes as real >= steps as real * PerStep(capacity) - 1.0
    ensures Rate(bytes, steps * STEP) >= capacity - OneByte(steps * STEP)
  {
    var e := (steps * STEP) as real / SECOND as real;
    assert e == steps as real * STEP_SECONDS;
    assert steps as real * PerStep(capacity) * 8.0 == capacity * e;
    assert OneByte(steps * STEP) * e == 8.0;
    DivideAtLeast(bytes as real * 8.0, capacity - OneByte(steps * STEP), e);
  }

  /** Interval i + 1 lasts steps in which the oldest flow wants all of the link. */
  predicate FullInterval(link: Link, env: Env, t: Trace, i: nat)
    requires i < |t.at|
  {
    var from, to := StepOf(t.at, i), StepOf(t.at, i + 1);
    0 <= from <= to && Filled(link, env, from, to)
  }

  /** An interval on a full link is measured at no less than the capacity, up to one byte. */
  lemma GoodputFloor(link: Link, env: Env, c: Config, t: Trace, d: Demand, i: nat)
    requires c.p.Sane() && c.maxFlows >= 1 && env.Valid() && Settled(link) && Follows(link, c, t)
    requires Offered(link, env, c, t, d) && i < |t.h| && FullInterval(link, env, t, i)
    ensures GoodputAt(c, t.h, i + 1) >= link.capacity - OneByte(c.p.interval)
  {
    hide Lawful, Driven, PerStep, OneByte, Rate, Truncate, Delivered, Carried, Offered, Filled, BusyFrom, DeepEnough;
    hide Sampled, BytesAt;
    var from, to := StepOf(t.at, i), StepOf(t.at, i + 1);
    BytesBetween(link, c, t, i);
    FilledIsBusy(link, env, c, t, d, from, to);
    BusyDelivers(link, t.steps, from, to);
    ConstantCarried(link, from, to);
    DeliveredGrows(link, t.steps, from, to);
    TruncatedIncrease(Delivered(t.steps[..from]), Delivered(t.steps[..to]));
    RateFloor(BytesAt(t.h, i + 1), to - from, link.capacity);
    OneByteShrinks(c.p.interval, (to - from) * STEP);
  }

  lemma DeliveredGrows(link: Link, steps: seq<Moved>, from: nat, to: nat)
    requires link.Valid() && Lawful(link, steps) && from <= to <= |steps|
    ensures 0.0 <= Delivered(steps[..from]) <= Delivered(steps[..to])
  {
    hide Lawful;
    LawfulPrefix(link, steps, from);
    LawfulPrefix(link, steps, to);
    TotalDelivery(link, steps[..from]);
    assert steps[..to][..from] == steps[..from];
    DeliveryGrows(link, steps[..to], from);
  }

  // ---- What the engine makes of it ----

  /** What is measured from a later interval on is the tail of what is measured from an earlier one on. */
  lemma {:induction false} MeasuredTail(c: Config, h: seq<Observation>, a: int, b: int)
    requires c.p.Sane() && a <= b
    ensures var m, n := MeasuredFrom(c, h, a), MeasuredFrom(c, h, b);
            |n| <= |m| && m[|m| - |n|..] == n
  {
    hide Drained, MeasuredFrom;
    if b > |h| {
      NothingYet(c, h, b);
    } else if h == [] {
      NoneMeasured(c, a);
      NoneMeasured(c, b);
    } else {
      MeasuredTail(c, Past(h), a, b);
      SeriesStep(c, h, a);
      SeriesStep(c, h, b);
    }
  }

  lemma NoneMeasured(c: Config, from: int)
    requires c.p.Sane()
    ensures MeasuredFrom(c, [], from) == []
  {
  }

  lemma {:induction false} RestartIsMeasured(c: Config, h: seq<Observation>)
    requires c.p.Sane() && LastRestart(c, h) != 0
    ensures IsMeasured(c, h, LastRestart(c, h))
  {
    hide Restarts, Drained;
    assert h[..|h|] == h;
    if Restarts(c, h) {
      RestartsMeasured(c, h);
    } else {
      RestartIsMeasured(c, Past(h));
      var r := LastRestart(c, h);
      assert Past(h)[..r] == h[..r];
    }
  }

  /** Some goodput has been recorded since the restart when any interval from the given one on was measured. */
  lemma SomethingMeasured(c: Config, h: seq<Observation>, from: int)
    requires c.p.Sane() && MeasuredFrom(c, h, from) != []
    ensures MeasuredFrom(c, h, LastRestart(c, h)) != []
  {
    hide MeasuredFrom, IsMeasured, LastRestart;
    var r, n := LastRestart(c, h), MeasuredFrom(c, h, from);
    var j := n[|n| - 1];
    assert j in n;
    MeasuredMeaning(c, h, from, j);
    MeasuredMeaning(c, h, r, j);
    if r > j {
      RestartIsMeasured(c, h);
      MeasuredMeaning(c, h, r, r);
    }
  }

  /** Every interval measured from the given one on reached low. */
  predicate ReachedFrom(c: Config, h: seq<Observation>, from: int, low: real)
    requires c.p.Sane()
  {
    forall i :: from <= i <= |h| && IsMeasured(c, h, i) ==> GoodputAt(c, h, i) >= low
  }

  /** After mad such intervals the moving average has reached it, whatever came before. */
  lemma AverageReached(c: Config, h: seq<Observation>, from: int, low: real)
    requires c.p.Sane() && ReachedFrom(c, h, from, low) && |MeasuredFrom(c, h, from)| >= c.p.mad
    ensures MovingAverageOf(c, After(c, h)) >= low
  {
    hide MeasuredFrom, IsMeasured, GoodputAt, LastRestart, After, Mean, GoodputsFrom, ReachedFrom;
    var r := LastRestart(c, h);
    var m, n, g := MeasuredFrom(c, h, r), MeasuredFrom(c, h, from), GoodputsFrom(c, h, r);
    SeriesOnline(c, h);
    SomethingMeasured(c, h, from);
    var w := Trailing(g, c.p.mad);
    forall k | 0 <= k < |w| ensures w[k] >= low {
      NthGoodput(c, h, r, |m| - |w| + k);
      if r < from {
        MeasuredTail(c, h, r, from);
        assert m[|m| - |w| + k] == n[|n| - |w| + k];
      }
      Reached(c, h, from, low, m[|m| - |w| + k]);
    }
    MeanAtLeast(w, low);
  }

  lemma NthGoodput(c: Config, h: seq<Observation>, from: int, k: nat)
    requires c.p.Sane() && k < |MeasuredFrom(c, h, from)|
    ensures var i := MeasuredFrom(c, h, from)[k];
            from <= i && 1 <= i <= |h| && IsMeasured(c, h, i) && GoodputsFrom(c, h, from)[k] == GoodputAt(c, h, i)
  {
    hide MeasuredFrom, IsMeasured, GoodputAt;
    var i := MeasuredFrom(c, h, from)[k];
    assert i in MeasuredFrom(c, h, from);
    MeasuredMeaning(c, h, from, i);
  }

  lemma Reached(c: Config, h: seq<Observation>, from: int, low: real, i: int)
    requires c.p.Sane() && ReachedFrom(c, h, from, low) && from <= i && 1 <= i <= |h| && IsMeasured(c, h, i)
    ensures GoodputAt(c, h, i) >= low
  {
  }

  lemma PeakReached(c: Config, h: seq<Observation>, from: int, low: real)
    requires c.p.Sane() && ReachedFrom(c, h, from, low) && MeasuredFrom(c, h, from) != []
    ensures After(c, h).peak >= low
  {
    hide MeasuredFrom, IsMeasured, GoodputAt, LastRestart, After, PeakOf;
    var i := MeasuredFrom(c, h, from)[0];
    assert i in MeasuredFrom(c, h, from);
    MeasuredMeaning(c, h, from, i);
    PeakIsLargest(c, h, i);
    BoundAndPeak(c, h);
  }

  /** From interval i on the link was full up to the end of interval n. */
  predicate FullSince(link: Link, env: Env, t: Trace, i: nat, n: nat)
    requires n <= |t.at|
  {
    forall j :: i <= j < n ==> FullInterval(link, env, t, j)
  }

  lemma GoodputOfPrefix(c: Config, h: seq<Observation>, n: nat, i: int)
    requires c.p.Sane() && 1 <= i <= n <= |h|
    ensures GoodputAt(c, h[..n], i) == GoodputAt(c, h, i)
  {
  }

  lemma FloorReached(link: Link, env: Env, c: Config, t: Trace, d: Demand, i: nat, n: nat)
    requires c.p.Sane() && c.maxFlows >= 1 && env.Valid() && Settled(link) && Follows(link, c, t)
    requires Offered(link, env, c, t, d) && i <= n <= |t.h| && FullSince(link, env, t, i, n)
    ensures ReachedFrom(c, t.h[..n], i + 1, link.capacity - OneByte(c.p.interval))
  {
    hide Settled, Offered, FullInterval, GoodputAt, IsMeasured, Lawful, Driven, Sampled;
    forall j | i + 1 <= j <= n ensures GoodputAt(c, t.h[..n], j) >= link.capacity - OneByte(c.p.interval) {
      GoodputFloor(link, env, c, t, d, j - 1);
      GoodputOfPrefix(c, t.h, n, j);
    }
  }

  /**
   The closed loop never under-reports a full link: after mad measured intervals in which the
   oldest flow wants all of the link, the moving average and the peak have reached the capacity
   less one byte per interval, with a bucket or without, whatever the other flows do.
   */
  lemma NeverUnderReports(link: Link, env: Env, c: Config, t: Trace, d: Demand, i: nat, n: nat)
    requires c.p.Sane() && c.maxFlows >= 1 && env.Valid() && Settled(link) && Follows(link, c, t)
    requires Offered(link, env, c, t, d) && i <= n <= |t.h| && FullSince(link, env, t, i, n)
    requires |MeasuredFrom(c, t.h[..n], i + 1)| >= c.p.mad
    ensures var s, floor := After(c, t.h[..n]), link.capacity - OneByte(c.p.interval);
            && MovingAverageOf(c, s) >= floor && s.peak >= floor
            && (n > 0 ==> Decided(c, t.h[..n]).throughput >= floor)
  {
    hide Settled, Offered, FullSince, Follows, After, Decided, MeasuredFrom, ReachedFrom, MovingAverageOf;
    FollowsTicks(link, c, t);
    FloorReached(link, env, c, t, d, i, n);
    AverageReached(c, t.h[..n], i + 1, link.capacity - OneByte(c.p.interval));
    PeakReached(c, t.h[..n], i + 1, link.capacity - OneByte(c.p.interval));
    if n > 0 {
      ThroughputIsAverage(c, t.h[..n]);
    }
  }

  lemma FollowsTicks(link: Link, c: Config, t: Trace)
    requires c.p.Sane() && Follows(link, c, t)
    ensures |t.at| == |t.h|
  {
  }

  // ---- Without credit: the bound as well ----

  lemma NothingDrains(c: Config, h: seq<Observation>)
    requires c.p.Sane() && c.p.sendBufferBytes == 0 && h != []
    ensures !Drained(c, h)
  {
    hide Added;
    assert SendCredit(c, Past(h)) == 0;
  }

  lemma {:induction false} AllMeasured(c: Config, h: seq<Observation>, from: int)
    requires c.p.Sane() && c.p.sendBufferBytes == 0 && 1 <= from <= |h| + 1
    ensures |MeasuredFrom(c, h, from)| == |h| - from + 1
    ensures forall i :: 1 <= i <= |h| ==> IsMeasured(c, h, i)
  {
    hide Drained;
    forall i | 1 <= i <= |h| ensures IsMeasured(c, h, i) {
      NothingDrains(c, h[..i]);
    }
    if from == |h| + 1 {
      NothingYet(c, h, from);
    } else {
      NothingDrains(c, h);
      AllMeasured(c, Past(h), from);
    }
  }

  /** The interval just observed reached the floor, and nothing so far has passed the ceiling or been negative. */
  predicate Between(c: Config, h: seq<Observation>, floor: real, ceiling: real)
    requires c.p.Sane() && h != []
  {
    && NeverAbove(c, h, ceiling) && GoodputAt(c, h, |h|) >= floor
    && forall i :: 1 <= i <= |h| ==> GoodputAt(c, h, i) >= 0.0
  }

  lemma AverageNonNegative(c: Config, h: seq<Observation>, from: int)
    requires c.p.Sane() && forall i :: 1 <= i <= |h| ==> GoodputAt(c, h, i) >= 0.0
    ensures CurrentOf(GoodputsFrom(c, h, from), c.p.mad) >= 0.0
  {
    hide GoodputAt, MeasuredFrom, Mean, GoodputsFrom, IsMeasured;
    var g := GoodputsFrom(c, h, from);
    if g != [] {
      var w := Trailing(g, c.p.mad);
      forall k | 0 <= k < |w| ensures 0.0 <= w[k] {
        NthGoodput(c, h, from, |g| - |w| + k);
      }
      MeanAtLeast(w, 0.0);
    }
  }

  lemma NotBelow(g: real, average: real, floor: real, ceiling: real, tolerance: real)
    requires 0.0 <= average <= ceiling && floor <= g && tolerance > 0.0 && Narrow(floor, ceiling, tolerance)
    ensures !FellBelow(g, average, tolerance)
  {
    if tolerance <= 1.0 {
      ScaleAtMost(1.0 - tolerance, average, ceiling);
    } else {
      ScaleAtMost(tolerance - 1.0, 0.0, average);
    }
  }

  /** An interval that reaches what nothing before it passed by more than the change tolerance restarts nothing. */
  lemma NoRestart(c: Config, h: seq<Observation>, floor: real, ceiling: real)
    requires c.p.Sane() && h != [] && ceiling >= 0.0 && Narrow(floor, ceiling, c.p.changeTolerance)
    requires Between(c, h, floor, ceiling)
    ensures !Restarts(c, h)
  {
    hide GoodputAt, FellBelow, GoodputsFrom, Narrow, CurrentOf, Held;
    var r := LastRestart(c, Past(h));
    NeverAbovePrefix(c, h, |h| - 1, ceiling);
    AverageBelow(c, Past(h), r, ceiling);
    forall i | 1 <= i <= |Past(h)| ensures GoodputAt(c, Past(h), i) >= 0.0 {
      GoodputOfPrefix(c, h, |h| - 1, i);
    }
    AverageNonNegative(c, Past(h), r);
    NotBelow(GoodputAt(c, h, |h|), CurrentOf(GoodputsFrom(c, Past(h), r), c.p.mad), floor, ceiling,
             c.p.changeTolerance);
  }

  predicate BetweenSince(c: Config, h: seq<Observation>, i: nat, floor: real, ceiling: real)
    requires c.p.Sane()
  {
    forall m :: i < m <= |h| ==> Between(c, h[..m], floor, ceiling)
  }

  lemma {:induction false} NoRestartSince(c: Config, h: seq<Observation>, i: nat, floor: real, ceiling: real)
    requires c.p.Sane() && i <= |h| && ceiling >= 0.0 && Narrow(floor, ceiling, c.p.changeTolerance)
    requires BetweenSince(c, h, i, floor, ceiling)
    ensures LastRestart(c, h) <= i
  {
    hide Between, Restarts, Narrow;
    if |h| == i {
    } else {
      assert h[..|h|] == h;
      forall m | i < m <= |Past(h)| ensures Between(c, Past(h)[..m], floor, ceiling) {
        assert Past(h)[..m] == h[..m];
      }
      NoRestartSince(c, Past(h), i, floor, ceiling);
      NoRestart(c, h, floor, ceiling);
    }
  }

  lemma GoodputNonNegative(link: Link, c: Config, t: Trace, i: nat)
    requires c.p.Sane() && Settled(link) && Follows(link, c, t) && i < |t.h|
    ensures GoodputAt(c, t.h, i + 1) >= 0.0
  {
    hide Lawful, Driven, Delivered, BytesAt, Sampled, Truncate, DeepEnough;
    var from, to := StepOf(t.at, i), StepOf(t.at, i + 1);
    BytesBetween(link, c, t, i);
    DeliveredGrows(link, t.steps, from, to);
    TruncateMonotone(Delivered(t.steps[..from]), Delivered(t.steps[..to]));
    DivideAtLeast(BytesAt(t.h, i + 1) as real * 8.0, 0.0, Elapsed(c.p, t.h[i]) as real / SECOND as real);
  }

  lemma StaysBetween(link: Link, env: Env, c: Config, t: Trace, d: Demand, i: nat, n: nat)
    requires c.p.Sane() && c.maxFlows >= 1 && env.Valid() && Constant(link) && Follows(link, c, t)
    requires Offered(link, env, c, t, d) && i <= n <= |t.h| && FullSince(link, env, t, i, n)
    ensures BetweenSince(c, t.h[..n], i, link.capacity - OneByte(c.p.interval), CapacityCeiling(link, c.p))
  {
    hide Offered, FullInterval, GoodputAt, Lawful, Driven, Sampled, CapacityCeiling, OneByte;
    var h := t.h[..n];
    forall m | i < m <= n
      ensures Between(c, h[..m], link.capacity - OneByte(c.p.interval), CapacityCeiling(link, c.p))
    {
      assert h[..m] == t.h[..m];
      forall j | 1 <= j <= m
        ensures 0.0 <= GoodputAt(c, h[..m], j) <= CapacityCeiling(link, c.p)
      {
        GoodputOfPrefix(c, t.h, m, j);
        GoodputCeiling(link, c, t, j - 1);
        GoodputNonNegative(link, c, t, j - 1);
      }
      GoodputFloor(link, env, c, t, d, m - 1);
      GoodputOfPrefix(c, t.h, m, m);
    }
  }

  lemma WindowBetween(c: Config, h: seq<Observation>, i: nat, m: int, floor: real, ceiling: real)
    requires c.p.Sane() && BetweenSince(c, h, i, floor, ceiling) && i < m <= |h|
    ensures floor <= GoodputAt(c, h, m) <= ceiling
  {
    hide GoodputAt;
    assert Between(c, h[..m], floor, ceiling);
    GoodputOfPrefix(c, h, m, m);
  }

  /** mad intervals that kept to close and narrow bounds leave the bound of exactly their goodputs. */
  lemma BoundBetween(c: Config, h: seq<Observation>, i: nat, floor: real, ceiling: real)
    requires c.p.Sane() && c.p.sendBufferBytes == 0 && i + c.p.mad <= |h| && ceiling >= 0.0
    requires BetweenSince(c, h, i, floor, ceiling)
    requires Close(floor, ceiling, c.p.stdDevTolerance) && Narrow(floor, ceiling, c.p.changeTolerance)
    ensures var b := After(c, h).lb;
            floor <= b.low <= ceiling && b.start == |h| - c.p.mad + 1 && b.intervals == c.p.mad
  {
    hide After, GoodputAt, MeasuredFrom, IsMeasured, Close, Narrow, BetweenSince, LastRestart, WindowGoodputs;
    AllMeasured(c, h, i + 1);
    NoRestartSince(c, h, i, floor, ceiling);
    var w := WindowGoodputs(c, h, |h| - c.p.mad + 1);
    forall k | 0 <= k < |w| ensures floor <= w[k] <= ceiling {
      WindowBetween(c, h, i, |h| - c.p.mad + 1 + k, floor, ceiling);
    }
    BoundForms(c, h, floor, ceiling);
  }

  /** Moving average, peak and bound all lie within one byte per interval of the capacity. */
  predicate ReportsCapacity(link: Link, c: Config, s: EngineState, n: int)
    requires c.p.Sane()
  {
    var floor, ceiling := link.capacity - OneByte(c.p.interval), CapacityCeiling(link, c.p);
    && floor <= MovingAverageOf(c, s) <= ceiling && floor <= s.peak <= ceiling
    && floor <= s.lb.low <= ceiling && s.lb.start == n - c.p.mad + 1 && s.lb.intervals == c.p.mad
  }

  /**
   On a constant link without credit the engine reports the capacity: mad intervals after the
   oldest flow could fill it, moving average, peak and lower bound are all within one byte per
   interval of it, and the bound is that of the last mad intervals, provided a byte per interval
   is small against the tolerances.
   */
  lemma CapacityReported(link: Link, env: Env, c: Config, t: Trace, d: Demand, i: nat, n: nat)
    requires c.p.Sane() && c.p.sendBufferBytes == 0 && c.maxFlows >= 1 && env.Valid() && Constant(link)
    requires Follows(link, c, t) && Offered(link, env, c, t, d)
    requires i + c.p.mad <= n <= |t.h| && FullSince(link, env, t, i, n)
    requires Close(link.capacity - OneByte(c.p.interval), CapacityCeiling(link, c.p), c.p.stdDevTolerance)
    requires Narrow(link.capacity - OneByte(c.p.interval), CapacityCeiling(link, c.p), c.p.changeTolerance)
    ensures ReportsCapacity(link, c, After(c, t.h[..n]), n)
  {
    hide Offered, FullSince, Follows, After, MeasuredFrom, CapacityCeiling, OneByte, Close, Narrow, Constant;
    hide BetweenSince, MovingAverageOf, Decided, IsMeasured, Settled;
    var h := t.h[..n];
    FollowsTicks(link, c, t);
    AllMeasured(c, h, i + 1);
    ConstantSettled(link);
    NeverUnderReports(link, env, c, t, d, i, n);
    NeverOverReports(link, c, t, n);
    StaysBetween(link, env, c, t, d, i, n);
    CeilingNonNegative(link, c.p);
    BoundBetween(c, h, i, link.capacity - OneByte(c.p.interval), CapacityCeiling(link, c.p));
  }

  lemma ConstantSettled(link: Link)
    requires Constant(link)
    ensures Settled(link)
  {
  }

  /** The same of a run's outcome: what the summary says of a constant link that was full in the end. */
  lemma OutcomeReportsCapacity(link: Link, env: Env, c: Config, t: Trace, d: Demand, i: nat, out: Outcome,
                               curF: seq<LatencySample>, curS: seq<LatencySample>)
    requires c.p.Sane() && c.p.sendBufferBytes == 0 && c.maxFlows >= 1 && env.Valid() && Constant(link)
    requires Concluded(link, c, t, out) && Offered(link, env, c, t, d)
    requires out.summary == SummaryOf(c.p, After(c, t.h), curF, curS)
    requires i + c.p.mad <= |t.h| == |t.at| && FullSince(link, env, t, i, |t.h|)
    requires Close(link.capacity - OneByte(c.p.interval), CapacityCeiling(link, c.p), c.p.stdDevTolerance)
    requires Narrow(link.capacity - OneByte(c.p.interval), CapacityCeiling(link, c.p), c.p.changeTolerance)
    ensures var s, floor, ceiling := out.summary, link.capacity - OneByte(c.p.interval), CapacityCeiling(link, c.p);
            floor <= s.throughput <= ceiling && floor <= s.peak <= ceiling && floor <= s.bound.low <= ceiling
  {
    hide Follows, After, Offered, FullSince, Close, Narrow, CapacityCeiling, OneByte, Constant, Reported, InForce;
    hide OpenFlows, Counter, LoadedRTT, CurrentOf, WindowOf, ResponsivenessOf, StableAverages, StableWindowed;
    assert t.h[..|t.h|] == t.h;
    CapacityReported(link, env, c, t, d, i, |t.h|);
  }
}
