/**
 Drain intervals (internal/engine/engine.go): what an interval whose bytes are mostly credit
 leaves untouched, and the decision it takes part in all the same.
 */
module Draining {
  import opened Series
  import opened Stats
  import opened Stability
  import opened Engine
  import opened Steps
  import opened History
  import opened Ramp
  import opened Stopping

  /** A drain interval neither restarts the tracking of goodput nor makes it stable. */
  lemma DrainKeepsLatch(c: Config, h: seq<Observation>)
    requires c.p.Sane() && h != [] && Drained(c, h)
    ensures LastRestart(c, h) == LastRestart(c, Past(h)) && StableSince(c, h) == StableSince(c, Past(h))
  {
    hide Drained, GoodputsFrom, MeasuredFrom, StableAverages;
    var r := LastRestart(c, Past(h));
    assert !Restarts(c, h);
    SeriesStep(c, h, r);
    StableIsFound(c, Past(h), r);
  }

  lemma StableIsFound(c: Config, h: seq<Observation>, from: int)
    requires c.p.Sane()
    ensures StableAverages(GoodputsFrom(c, h, from), c.p.mad, c.p.stdDevTolerance) ==> FirstStable(c, h, from) != 0
  {
    hide StableAverages;
    if h == [] {
      NothingAverages(c, from);
    }
  }

  lemma NothingAverages(c: Config, from: int)
    requires c.p.Sane()
    ensures !StableAverages(GoodputsFrom(c, [], from), c.p.mad, c.p.stdDevTolerance)
  {
  }

  lemma DrainAddsNothing(c: Config, h: seq<Observation>)
    requires c.p.Sane() && h != [] && Drained(c, h)
    ensures Added(c, h) == 0
  {
    hide Drained, Stops, RampOver;
  }

  lemma SinceOnline(c: Config, h: seq<Observation>)
    requires c.p.Sane() && Online(c, h)
    ensures After(c, h).steadyFrom == StableSince(c, h) && (After(c, h).goodputStable <==> StableSince(c, h) != 0)
    ensures After(c, h).rpRaw == RPMs(c, h)
  {
    hide After, FirstStable, LastRestart, Counted, Tracks, Ramping, LatestBound, PeakOf, EverStopped, RPMs;
  }

  /** The figures that goodput is reported and judged by. */
  predicate SameGoodput(s: EngineState, r: EngineState) {
    && r.tpRaw == s.tpRaw && r.holdG == s.holdG && r.holdIdx == s.holdIdx
    && r.lb == s.lb && r.peak == s.peak
    && r.goodputStable == s.goodputStable && r.steadyFrom == s.steadyFrom
  }

  /**
   A drain interval changes no figure of goodput and opens no flow. But its probe samples count
   like any others: once the ramp is over or goodput is stable, they enter the responsiveness
   series, and if that is stable with them and goodput was stable before, the phase stops on it.
   */
  lemma DrainInterval(c: Config, h: seq<Observation>)
    requires c.p.Sane() && h != [] && Drained(c, h)
    ensures var s, d := After(c, h), Decided(c, h);
            && d.drain && !d.hold && d.addFlows == 0
            && SameGoodput(After(c, Past(h)), s) && d.throughput == CurrentOf(After(c, Past(h)).tpRaw, c.p.mad)
            && s.foreign == After(c, Past(h)).foreign + [h[|h| - 1].foreign]
            && s.self == After(c, Past(h)).self + [h[|h| - 1].self]
            && s.rpRaw == After(c, Past(h)).rpRaw
                          + (if UnderLoad(c, h) && LoadedRPM(c, h) > 0.0 then [LoadedRPM(c, h)] else [])
    ensures UnderLoad(c, h) <==> RampOver(c, Past(h)) || StableSince(c, Past(h)) != 0
    ensures Decided(c, h).stop <==>
              StableSince(c, Past(h)) != 0 && StableWindowed(RPMs(c, h), c.p.mad, c.p.stdDevTolerance)
  {
    hide Drained, After, Decided, Step, GoodputsFrom, MeasuredFrom, LastRestart, StableSince, StableWindowed, Ramping;
    hide LoadedRPM, WellFormed, Latched, Measured, RampOver, LatestBound, PeakOf, Added, CurrentOf, Counted;
    hide FirstStable, Goodput, Drains, Holds, GoodputAt;
    OnlineEqualsOffline(c, h);
    OnlineEqualsOffline(c, Past(h));
    DrainKeepsLatch(c, h);
    DrainAddsNothing(c, h);
    DrainOnline(c, h);
    EngineIsItsHistory(c, h);
    var s, o := After(c, Past(h)), h[|h| - 1];
    LastStep(c, h);
    StepFields(c, s, o);
    MeasuredSeries(c.p, s, o);
    MeasuredCounts(c.p, s, o);
    LatchedSeries(c.p, Measured(c.p, s, o));
    SinceOnline(c, Past(h));
  }

  /** A phase can stop on a drain interval, on the strength of that interval's own probe. */
  lemma DrainMayStop()
    ensures var c, h := Buffered(10), [MOVING, STALLED];
            && Driven(c, h) && Decided(c, h).drain && Decided(c, h).stop
            && LoadedRPM(c, Past(h)) == 0.0
  {
    hide Step, WellFormed, ResponsivenessOf, StableWindowed, After, Decided, Online, Measured, Latched, UnderLoad;
    hide StableSince, Drained, LoadedRPM, RPMs;
    var c, h := Buffered(10), [MOVING, STALLED];
    var s := Step(c, Initial(c), MOVING).0;
    assert Past(h) == [MOVING];
    Reaches(10);
    FirstInterval(10);
    OnlineEqualsOffline(c, [MOVING]);
    RampOnline(c, [MOVING]);
    SinceOnline(c, [MOVING]);
    DrainOnline(c, h);
    DrainInterval(c, h);
    OneProbe(c, h);
    OnlineEqualsOffline(c, h);
    SinceOnline(c, h);
    assert RPMs(c, h) == [LoadedRPM(c, h)];
    StableOnce(LoadedRPM(c, h));
  }

  lemma FlattenOne<T>(xs: seq<T>)
    ensures Flatten([xs]) == xs
  {
    assert [xs][..0] == [];
  }

  lemma OneProbe(c: Config, h: seq<Observation>)
    requires c == Buffered(10) && h == [MOVING, STALLED]
    ensures LoadedRPM(c, h) == ResponsivenessOf([], [PROBE], 95.0).total > 0.0 && LoadedRPM(c, [MOVING]) == 0.0
  {
    hide ResponsivenessOf;
    ProbeResponds();
    FlattenOne<LatencySample>([]);
    FlattenOne([PROBE]);
    assert Trailing(ForeignOf(h), 1) == [[]] && Trailing(SelfOf(h), 1) == [[PROBE]];
    assert Trailing(ForeignOf([MOVING]), 1) == [[]] && Trailing(SelfOf([MOVING]), 1) == [[]];
  }
}
