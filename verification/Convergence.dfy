/**
 How long a phase takes on a steady path: the exact interval at which the engine stops
 when goodput and probes are the same in every interval.
 */
module Convergence {
  import opened Series
  import opened Stats
  import opened Stability
  import opened Engine
  import opened Steps
  import opened History
  import opened Windows

  predicate AllEqual<T(==)>(xs: seq<T>, v: T) {
    forall k :: 0 <= k < |xs| ==> xs[k] == v
  }

  /** The first interval under working conditions: the ramp is over, or goodput is stable. */
  function FirstWorking(mad: nat): nat {
    if mad < 3 then mad else 3
  }

  /** The interval at which a steady phase stops. */
  function StopInterval(mad: nat): int {
    mad + FirstWorking(mad) - 1
  }

  /** No send-buffer credit, and a ramp that a step without gain ends. */
  predicate RampCanEnd(p: Params) {
    p.Sane() && p.sendBufferBytes == 0 && p.rampGainTolerance > 0.0
  }

  /** Every interval of h moves bytes at the rate g and yields the same probe samples. */
  predicate SteadyPhase(c: Config, h: seq<Observation>, g: real, foreign: seq<LatencySample>, self: seq<LatencySample>)
    requires c.p.Sane()
  {
    && (forall i :: 1 <= i <= |h| ==> GoodputAt(c, h, i) == g)
    && (forall i :: 0 <= i < |h| ==> h[i].foreign == foreign && h[i].self == self)
  }

  /** The engine after n steady intervals, none of which stopped the phase. */
  predicate SteadyState(c: Config, s: EngineState, n: nat, g: real, foreign: seq<LatencySample>,
                        self: seq<LatencySample>, rpm: real)
    requires c.p.Sane()
  {
    && s.intervals == n
    && |s.foreign| == n && AllEqual(s.foreign, foreign)
    && |s.self| == n && AllEqual(s.self, self)
    && |s.tpRaw| == n && AllEqual(s.tpRaw, g)
    && (s.goodputStable <==> n >= c.p.mad)
    && |s.rpRaw| == (if n < FirstWorking(c.p.mad) then 0 else n - FirstWorking(c.p.mad) + 1) && AllEqual(s.rpRaw, rpm)
    && (s.rampDone <==> n >= 2)
    && s.drainCredit == 0
    && (n == 1 ==> s.awaitGain && s.beforeAdd == g)
    && (n == 0 ==> !s.awaitGain)
  }

  // ---- Constant series ----

  lemma ConstantAverage(raw: seq<real>, mad: nat, v: real)
    requires mad >= 1 && raw != [] && AllEqual(raw, v)
    ensures CurrentOf(raw, mad) == v
  {
    AveragesInBand(raw, mad, v, v);
  }

  /** A constant positive series is stable exactly from its mad-th value on. */
  lemma ConstantStable(raw: seq<real>, mad: nat, v: real, tolerance: real)
    requires mad >= 1 && AllEqual(raw, v) && v > 0.0 && tolerance > 0.0
    ensures StableAverages(raw, mad, tolerance) <==> |raw| >= mad
    ensures StableWindowed(raw, mad, tolerance) <==> |raw| >= mad
  {
    hide StableAverages, StableWindowed;
    ScaleLess(v, 0.0, tolerance);
    StableInBand(raw, mad, v, v, tolerance);
  }

  lemma {:induction false} FlattenEqual<T>(xss: seq<seq<T>>, xs: seq<T>)
    requires AllEqual(xss, xs)
    ensures Flatten(xss) == Copies(xs, |xss|)
  {
    if xss == [] {
    } else {
      FlattenEqual(xss[..|xss| - 1], xs);
    }
  }

  /** Whatever the number of intervals in the window, equal intervals are as responsive as one. */
  lemma WindowRPMSteady(p: Params, s: EngineState, foreign: seq<LatencySample>, self: seq<LatencySample>)
    requires p.Sane() && |s.foreign| == |s.self| >= 1 && AllEqual(s.foreign, foreign) && AllEqual(s.self, self)
    ensures WindowRPM(p, s) == ResponsivenessOf(foreign, self, p.trimmedMeanPercent).total
  {
    hide ResponsivenessOf;
    FlattenEqual(Trailing(s.foreign, p.mad), foreign);
    FlattenEqual(Trailing(s.self, p.mad), self);
    ResponsivenessReplicated(foreign, self, |Trailing(s.foreign, p.mad)|, p.trimmedMeanPercent);
  }

  lemma NotFallen(g: real, tolerance: real)
    requires g > 0.0 && tolerance > 0.0
    ensures !FellBelow(g, g, tolerance)
  {
    assert tolerance * g > 0.0;
  }

  // ---- One steady interval ----

  lemma SteadyMeasured(c: Config, s: EngineState, o: Observation, n: nat, g: real,
                       foreign: seq<LatencySample>, self: seq<LatencySample>, rpm: real)
    requires c.p.Sane() && WellFormed(s) && g > 0.0
    requires SteadyState(c, s, n, g, foreign, self, rpm)
    requires Goodput(c.p, s, o) == g && o.foreign == foreign && o.self == self
    ensures !Drains(c.p, s, o)
    ensures var m := Latched(c.p, Measured(c.p, s, o));
            && m.intervals == n + 1
            && |m.foreign| == n + 1 && AllEqual(m.foreign, foreign)
            && |m.self| == n + 1 && AllEqual(m.self, self)
            && |m.tpRaw| == n + 1 && AllEqual(m.tpRaw, g)
            && (m.goodputStable <==> n + 1 >= c.p.mad)
            && m.rpRaw == s.rpRaw && m.rampDone == s.rampDone
            && m.awaitGain == s.awaitGain && m.beforeAdd == s.beforeAdd
            && m.addedInto == 0 && m.drainCredit == 0
  {
    hide Goodput, FellBelow, CurrentOf, StableAverages, Measured, Latched, WellFormed;
    if s.tpRaw != [] {
      ConstantAverage(s.tpRaw, c.p.mad, g);
    }
    NotFallen(g, c.p.changeTolerance);
    assert !Changes(c.p, s, o);
    MeasuredCounts(c.p, s, o);
    MeasuredSeries(c.p, s, o);
    LatchedSeries(c.p, Measured(c.p, s, o));
    ConstantStable(s.tpRaw + [g], c.p.mad, g, c.p.stdDevTolerance);
  }

  /** A steady step keeps the state steady, and stops exactly at the stop interval. */
  lemma SteadyStep(c: Config, s: EngineState, o: Observation, n: nat, g: real,
                   foreign: seq<LatencySample>, self: seq<LatencySample>, rpm: real)
    requires RampCanEnd(c.p) && (n == 0 ==> o.flows < c.maxFlows) && WellFormed(s) && g > 0.0 && rpm > 0.0
    requires SteadyState(c, s, n, g, foreign, self, rpm) && n + 1 <= StopInterval(c.p.mad)
    requires Goodput(c.p, s, o) == g && o.foreign == foreign && o.self == self
    requires rpm == ResponsivenessOf(foreign, self, c.p.trimmedMeanPercent).total
    ensures var (r, d) := Step(c, s, o);
            && (d.stop <==> n + 1 == StopInterval(c.p.mad))
            && (!d.stop ==> SteadyState(c, r, n + 1, g, foreign, self, rpm))
  {
    hide Goodput, Drains, Holds, CurrentOf, StableWindowed, StableAverages, Measured, Latched, WindowRPM, WellFormed;
    hide ResponsivenessOf, StepSize;
    SteadyMeasured(c, s, o, n, g, foreign, self, rpm);
    var m := Latched(c.p, Measured(c.p, s, o));
    WindowRPMSteady(c.p, m, foreign, self);
    ConstantStable(Responded(c.p, m).rpRaw, c.p.mad, rpm, c.p.stdDevTolerance);
  }

  lemma {:induction false} SteadyRun(c: Config, h: seq<Observation>, g: real,
                                     foreign: seq<LatencySample>, self: seq<LatencySample>, rpm: real)
    requires RampCanEnd(c.p) && (h != [] ==> h[0].flows < c.maxFlows)
    requires g > 0.0 && rpm > 0.0 && rpm == ResponsivenessOf(foreign, self, c.p.trimmedMeanPercent).total
    requires SteadyPhase(c, h, g, foreign, self) && |h| < StopInterval(c.p.mad)
    ensures SteadyState(c, After(c, h), |h|, g, foreign, self, rpm)
  {
    hide Step, GoodputAt, ResponsivenessOf, WellFormed, Goodput;
    if h == [] {
    } else {
      SteadyPast(c, h, g, foreign, self);
      SteadyRun(c, Past(h), g, foreign, self, rpm);
      GoodputOnline(c, h);
      SteadyStep(c, After(c, Past(h)), h[|h| - 1], |h| - 1, g, foreign, self, rpm);
    }
  }

  lemma SteadyPast(c: Config, h: seq<Observation>, g: real, foreign: seq<LatencySample>, self: seq<LatencySample>)
    requires c.p.Sane() && h != [] && SteadyPhase(c, h, g, foreign, self)
    ensures SteadyPhase(c, Past(h), g, foreign, self)
  {
    hide Rate, Elapsed;
    forall i | 1 <= i <= |Past(h)| ensures GoodputAt(c, Past(h), i) == g {
      assert GoodputAt(c, Past(h), i) == GoodputAt(c, h, i);
    }
  }

  /**
   Exact convergence: on a steady path whose probes yield a positive responsiveness, the
   engine stops at interval mad + min(3, mad) - 1, and at no earlier one.
   */
  lemma StopsExactly(c: Config, h: seq<Observation>, g: real, foreign: seq<LatencySample>, self: seq<LatencySample>)
    requires RampCanEnd(c.p) && h != [] && h[0].flows < c.maxFlows
    requires g > 0.0 && ResponsivenessOf(foreign, self, c.p.trimmedMeanPercent).total > 0.0
    requires SteadyPhase(c, h, g, foreign, self) && |h| <= StopInterval(c.p.mad)
    ensures Decided(c, h).stop <==> |h| == StopInterval(c.p.mad)
  {
    hide Step, GoodputAt, ResponsivenessOf, WellFormed, Goodput, After;
    var rpm := ResponsivenessOf(foreign, self, c.p.trimmedMeanPercent).total;
    SteadyPast(c, h, g, foreign, self);
    SteadyRun(c, Past(h), g, foreign, self, rpm);
    GoodputOnline(c, h);
    SteadyStep(c, After(c, Past(h)), h[|h| - 1], |h| - 1, g, foreign, self, rpm);
  }

  // ---- Goodputs that agree, rather than being equal ----

  /** While the goodputs keep to a close band, they become stable at the mad-th measured interval. */
  lemma {:induction false} FirstStableInBand(c: Config, h: seq<Observation>, from: int, low: real, high: real)
    requires c.p.Sane() && InBand(c, h, from, low, high) && Close(low, high, c.p.stdDevTolerance)
    ensures var idx := MeasuredFrom(c, h, from);
            FirstStable(c, h, from) == if |idx| < c.p.mad then 0 else idx[c.p.mad - 1]
  {
    hide Drained, GoodputAt, StableAverages, MeasuredFrom, GoodputsFrom, Close;
    if from > |h| {
      NothingYet(c, h, from);
    } else if h == [] {
      assert MeasuredFrom(c, h, from) == [] by { NothingMeasured(c, from); }
    } else {
      SeriesStep(c, h, from);
      StableInBand(GoodputsFrom(c, h, from), c.p.mad, low, high, c.p.stdDevTolerance);
      var a, b := GoodputsFrom(c, Past(h), from), GoodputsFrom(c, h, from);
      forall k | 0 <= k < |a| ensures low <= a[k] <= high {
        assert a[k] == b[k];
      }
      FirstStableInBand(c, Past(h), from, low, high);
    }
  }

  lemma NothingMeasured(c: Config, from: int)
    requires c.p.Sane()
    ensures MeasuredFrom(c, [], from) == []
  {
  }

  /**
   Goodputs that have agreed since the last restart latch stability exactly at the mad-th
   measured interval since then, and the summary confirms it.
   */
  lemma LatchesInBand(c: Config, h: seq<Observation>, low: real, high: real,
                      curF: seq<LatencySample>, curS: seq<LatencySample>)
    requires c.p.Sane() && InBand(c, h, LastRestart(c, h), low, high) && Close(low, high, c.p.stdDevTolerance)
    ensures var s, idx := After(c, h), MeasuredFrom(c, h, LastRestart(c, h));
            && s.steadyFrom == (if |idx| < c.p.mad then 0 else idx[c.p.mad - 1])
            && (s.goodputStable <==> |idx| >= c.p.mad)
            && (SummaryOf(c.p, s, curF, curS).throughputStable <==> |idx| >= c.p.mad)
  {
    hide After, FirstStable, LastRestart, MeasuredFrom, GoodputsFrom, StableAverages, StableWindowed, Close;
    hide LatestBound, PeakOf, Counted, Ramping, Responds, WindowOf, ResponsivenessOf, CurrentOf;
    OnlineEqualsOffline(c, h);
    FirstStableInBand(c, h, LastRestart(c, h), low, high);
    StableInBand(GoodputsFrom(c, h, LastRestart(c, h)), c.p.mad, low, high, c.p.stdDevTolerance);
  }

  /**
   When all goodputs measured in a phase agree, to within the change tolerance too, nothing
   restarts and stability is latched exactly at the mad-th measured interval of the phase.
   */
  lemma LatchesInPhase(c: Config, h: seq<Observation>, low: real, high: real)
    requires c.p.Sane() && InBand(c, h, 0, low, high)
    requires Close(low, high, c.p.stdDevTolerance) && Narrow(low, high, c.p.changeTolerance)
    ensures var s, idx := After(c, h), MeasuredFrom(c, h, 0);
            && LastRestart(c, h) == 0
            && s.tpRaw == GoodputsFrom(c, h, 0)
            && s.steadyFrom == (if |idx| < c.p.mad then 0 else idx[c.p.mad - 1])
  {
    hide After, InBand, Close, Narrow, MeasuredFrom, GoodputsFrom, Restarts;
    BandKeepsTracking(c, h, 0, low, high);
    LatchesInBand(c, h, low, high, [], []);
    SeriesOnline(c, h);
  }

  /**
   When both series agree, the phase is told to stop exactly from the interval on at which
   each of them has mad values.
   */
  lemma StopsInBands(c: Config, h: seq<Observation>, low: real, high: real, slow: real, fast: real)
    requires c.p.Sane() && h != []
    requires InBand(c, h, LastRestart(c, h), low, high) && Close(low, high, c.p.stdDevTolerance)
    requires AllAtLeast(RPMs(c, h), slow) && AllAtMost(RPMs(c, h), fast) && Close(slow, fast, c.p.stdDevTolerance)
    ensures Decided(c, h).stop <==>
              |MeasuredFrom(c, h, LastRestart(c, h))| >= c.p.mad && |RPMs(c, h)| >= c.p.mad
  {
    hide Decided, FirstStable, LastRestart, InBand, RPMs, MeasuredFrom, StableWindowed, Close, Online;
    OnlineEqualsOffline(c, h);
    FirstStableInBand(c, h, LastRestart(c, h), low, high);
    StableInBand(RPMs(c, h), c.p.mad, slow, fast, c.p.stdDevTolerance);
  }
}
