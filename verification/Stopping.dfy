/**
 When the engine stops (internal/engine/engine.go), read off the history: the goodput
 criterion is latched, the responsiveness criterion is not, and the summary judges goodput
 afresh.
 */
module Stopping {
  import opened Series
  import opened Stats
  import opened Stability
  import opened Engine
  import opened Steps
  import opened History
  import opened Windows
  import opened Ramp
  import Convergence

  /**
   The engine stops exactly when goodput has been stable at some interval since the last
   restart, and the responsiveness of the intervals under working conditions is stable now.
   This spells out Stops, which the engine's decision equals by OnlineEqualsOffline.
   */
  lemma StopCriterion(c: Config, h: seq<Observation>)
    requires c.p.Sane() && h != []
    ensures Decided(c, h).stop <==>
              && FirstStable(c, h, LastRestart(c, h)) != 0
              && StableWindowed(RPMs(c, h), c.p.mad, c.p.stdDevTolerance)
  {
    hide Decided, StableWindowed, FirstStable, LastRestart, RPMs, Online;
    OnlineEqualsOffline(c, h);
  }

  // ---- Stop and the summary's judgement of throughput ----

  /** The goodputs measured since the last restart are stable as of the last interval of h. */
  predicate StableNow(c: Config, h: seq<Observation>)
    requires c.p.Sane()
  {
    StableAverages(GoodputsFrom(c, h, LastRestart(c, h)), c.p.mad, c.p.stdDevTolerance)
  }

  /** Interval j was measured and put an end to stability, which has not returned since. */
  predicate Broken(c: Config, h: seq<Observation>, j: int)
    requires c.p.Sane()
  {
    && 1 <= j && IsMeasured(c, h, j) && StableNow(c, h[..j - 1])
    && forall k :: j <= k <= |h| ==> !StableNow(c, h[..k])
  }

  /** Stability that began with the last interval of h holds now. */
  lemma StableAtOnce(c: Config, h: seq<Observation>)
    requires c.p.Sane() && h != [] && StableSince(c, h) == |h|
    ensures StableNow(c, h)
  {
    hide StableAverages, GoodputsFrom, LastRestart;
    FirstStableFrom(c, Past(h), LastRestart(c, h));
  }

  /** Stability that began earlier began with the same series. */
  lemma SameSeries(c: Config, h: seq<Observation>)
    requires c.p.Sane() && h != [] && 0 < StableSince(c, h) < |h|
    ensures LastRestart(c, h) == LastRestart(c, Past(h)) && StableSince(c, h) == StableSince(c, Past(h))
  {
    hide StableAverages, GoodputsFrom, Restarts;
    NothingYet(c, Past(h), |h|);
  }

  lemma DrainKeepsStable(c: Config, h: seq<Observation>)
    requires c.p.Sane() && h != [] && LastRestart(c, h) == LastRestart(c, Past(h)) && Drained(c, h)
    ensures StableNow(c, h) == StableNow(c, Past(h))
  {
    hide StableAverages, GoodputsFrom, MeasuredFrom, Drained, LastRestart;
    SeriesStep(c, h, LastRestart(c, h));
  }

  /** Stability that began and does not hold now was ended by a measured interval after it began. */
  lemma {:induction false} StabilityEnded(c: Config, h: seq<Observation>) returns (j: int)
    requires c.p.Sane() && h != [] && StableSince(c, h) != 0 && !StableNow(c, h)
    ensures StableSince(c, h) < j <= |h| && Broken(c, h, j)
  {
    hide StableNow, Drained, LastRestart, StableSince;
    assert h[..|h|] == h;
    SinceWithin(c, h);
    if StableSince(c, h) == |h| {
      StableAtOnce(c, h);
    }
    SameSeries(c, h);
    if StableNow(c, Past(h)) {
      j := |h|;
      if Drained(c, h) {
        DrainKeepsStable(c, h);
      }
    } else {
      j := StabilityEnded(c, Past(h));
      assert Past(h)[..j] == h[..j] && Past(h)[..j - 1] == h[..j - 1];
      forall k | j <= k <= |h| ensures !StableNow(c, h[..k]) {
        if k < |h| {
          assert Past(h)[..k] == h[..k];
        }
      }
    }
  }

  lemma SinceWithin(c: Config, h: seq<Observation>)
    requires c.p.Sane()
    ensures StableSince(c, h) <= |h|
  {
    hide FirstStable, LastRestart;
    FirstStableFrom(c, h, LastRestart(c, h));
  }

  /**
   What the summary says once the engine has stopped. Responsiveness is stable. Throughput is
   stable if stability began with the last interval; in general it is called unstable exactly
   if a measured interval after the one at which stability was latched has ended it. What is
   to be proved of that equivalence is that there is such an interval, which is StabilityEnded;
   that an ended stability is not called stable is part of what Broken says.
   */
  lemma SummaryAfterStop(c: Config, h: seq<Observation>, curF: seq<LatencySample>, curS: seq<LatencySample>)
    requires c.p.Sane() && h != [] && Decided(c, h).stop
    ensures var s := SummaryOf(c.p, After(c, h), curF, curS);
            && s.responsivenessStable && s.responsivenessConfidence == High
            && (s.throughputStable <==>
                  StableAverages(GoodputsFrom(c, h, LastRestart(c, h)), c.p.mad, c.p.stdDevTolerance))
            && 1 <= StableSince(c, h) <= |h|
            && (StableSince(c, h) == |h| ==> s.throughputStable)
            && (!s.throughputStable <==> exists j :: StableSince(c, h) < j <= |h| && Broken(c, h, j))
  {
    hide StableWindowed, StableAverages, FirstStable, LastRestart, RPMs, GoodputsFrom, After, Decided, Broken, Online;
    OnlineEqualsOffline(c, h);
    SummaryJudges(c, h, curF, curS);
    SinceWithin(c, h);
    if StableSince(c, h) == |h| {
      StableAtOnce(c, h);
    }
    if StableNow(c, h) {
      forall j | StableSince(c, h) < j <= |h| ensures !Broken(c, h, j) {
        StableIsNotBroken(c, h, j);
      }
    } else {
      var j := StabilityEnded(c, h);
    }
  }

  lemma StableIsNotBroken(c: Config, h: seq<Observation>, j: int)
    requires c.p.Sane() && 1 <= j <= |h| && StableNow(c, h)
    ensures !Broken(c, h, j)
  {
    hide StableNow, IsMeasured;
    assert h[..|h|] == h;
  }

  /** The summary's judgements are those of the series read off the history. */
  lemma SummaryJudges(c: Config, h: seq<Observation>, curF: seq<LatencySample>, curS: seq<LatencySample>)
    requires c.p.Sane()
    ensures var s := SummaryOf(c.p, After(c, h), curF, curS);
            && s.throughputStable == StableNow(c, h)
            && s.responsivenessStable == StableWindowed(RPMs(c, h), c.p.mad, c.p.stdDevTolerance)
            && (StableSince(c, h) != 0 && s.responsivenessStable ==> s.responsivenessConfidence == High)
  {
    hide StableWindowed, StableAverages, FirstStable, LastRestart, RPMs, GoodputsFrom;
    hide MeasuredFrom, LatestBound, PeakOf;
    hide WindowOf, ResponsivenessOf, CurrentOf, After, Counted, Ramping, EverStopped;
    OnlineEqualsOffline(c, h);
  }

  /**
   The summary's figures: its throughput is that of the last decision, its bound and peak are the
   engine's, and its confidences say whether a judgement is stable, and whether there are too
   few figures for one; responsiveness is not trusted until goodput has been stable.
   */
  lemma SummaryFigures(c: Config, h: seq<Observation>, curF: seq<LatencySample>, curS: seq<LatencySample>)
    requires c.p.Sane()
    ensures var s := SummaryOf(c.p, After(c, h), curF, curS);
            && s.intervals == |h| && (h != [] ==> s.throughput == Decided(c, h).throughput)
            && s.bound == After(c, h).lb && s.peak == PeakOf(c, h)
            && (s.throughputConfidence == High <==> s.throughputStable)
            && (s.throughputConfidence == Low <==> |GoodputsFrom(c, h, LastRestart(c, h))| < c.p.mad)
            && (s.responsivenessConfidence == High <==> StableSince(c, h) != 0 && s.responsivenessStable)
            && (s.responsivenessConfidence == Low <==> StableSince(c, h) == 0 || |RPMs(c, h)| < c.p.mad)
  {
    hide StableWindowed, StableAverages, LastRestart, RPMs, GoodputsFrom, MeasuredFrom, LatestBound, PeakOf;
    hide StableSince, WindowOf, ResponsivenessOf, CurrentOf, After, Decided, Stops, Added, UnderLoad, LoadedRPM;
    hide Held, Drained, ConfidenceOf, Saturated, EverStopped, RampOver, LastAdd, SendCredit, GoodputAt;
    hide ForeignOf, SelfOf;
    EngineIsItsHistory(c, h);
    ConfidenceMeans(GoodputsFrom(c, h, LastRestart(c, h)), c.p.mad, c.p.stdDevTolerance);
    ConfidenceMeans(RPMs(c, h), c.p.mad, c.p.stdDevTolerance);
  }

  // ---- A phase that stops although goodput is no longer stable ----

  const CONFIG := Buffered(0)
  const PROBE := LatencySample(MILLISECOND, 0, 0, 0, 0, 0, MILLISECOND, false)
  const MOVING := Observation(SECOND, 1000, 1, [], [])
  const STALLED := Observation(SECOND, 1000, 2, [], [PROBE])

  /** A small configuration whose flows are credited the given number of bytes. */
  function Buffered(bytes: int): (c: Config)
    ensures bytes >= 0 ==> c.p.Sane()
  {
    Config(Params(1, SECOND, 95.0, 0.05, 1, 1, 100, 0.05, bytes, 0.10, 0.25), 16)
  }

  lemma ProbeResponds()
    ensures ResponsivenessOf([], [PROBE], 95.0).total > 0.0
    ensures ResponsivenessOf([], [], 95.0).total == 0.0
  {
    hide TrimmedMeanOf;
    var d := DurationsOf([PROBE], HTTP);
    TrimmedMeanBetween(d, 95.0, MILLISECOND);
  }

  lemma OneInterval(p: Params, s: EngineState, foreign: seq<LatencySample>, self: seq<LatencySample>)
    requires p.Sane() && p.mad == 1 && s.foreign != [] && s.self != []
    requires s.foreign[|s.foreign| - 1] == foreign && s.self[|s.self| - 1] == self
    ensures WindowRPM(p, s) == ResponsivenessOf(foreign, self, p.trimmedMeanPercent).total
  {
    hide ResponsivenessOf;
    var f, sl := Trailing(s.foreign, 1), Trailing(s.self, 1);
    assert f == [foreign] && sl == [self];
    assert Flatten([foreign]) == foreign && Flatten([self]) == self by {
      assert [foreign][..0] == [] && [self][..0] == [];
    }
  }

  lemma StableOnce(v: real)
    requires v > 0.0
    ensures StableAverages([v], 1, 0.05) && StableWindowed([v], 1, 0.05)
  {
    Convergence.ConstantStable([v], 1, v, 0.05);
  }

  lemma NotStableAtZero(v: real)
    ensures !StableAverages([v, 0.0], 1, 0.05)
  {
    var raw := [v, 0.0];
    var averages := Averages(raw, 1);
    assert raw[..2] == raw;
    assert Trailing(raw, 1) == [0.0];
    assert averages[1] == Mean([0.0]) == 0.0;
    assert Trailing(averages, 1) == [0.0];
  }

  /** The first interval moves 8 kbit/s: goodput counts as stable, and one flow is added. */
  lemma FirstInterval(bytes: int)
    requires 0 <= bytes <= 50
    ensures var (s, d) := Step(Buffered(bytes), Initial(Buffered(bytes)), MOVING);
            && s.tpRaw == [8000.0] && s.goodputStable && s.rpRaw == [] && s.addedInto == 1 && s.drainCredit == bytes
            && |s.foreign| == |s.self| == 1 && s.lastBytes == 1000
            && !d.stop && d.addFlows == 1
  {
    hide Step, Measured, Latched, WellFormed, NoGain, StableAverages, StableWindowed, ResponsivenessOf, WindowRPM;
    var c, s := Buffered(bytes), Initial(Buffered(bytes));
    var t := Measured(c.p, s, MOVING);
    assert Goodput(c.p, s, MOVING) == 8000.0;
    MeasuredSeries(c.p, s, MOVING);
    MeasuredCounts(c.p, s, MOVING);
    LatchedSeries(c.p, t);
    StableOnce(8000.0);
    StepFields(c, s, MOVING);
    StepReports(c, s, MOVING);
    StepRPM(c, s, MOVING);
    OneInterval(c.p, Latched(c.p, t), [], []);
    ProbeResponds();
    StepRamp(c, s, MOVING);
    StepJudges(c, s, MOVING);
    StepStop(c, s, MOVING);
    assert !StableWindowed([], 1, 0.05) by { NothingStable(); }
  }

  lemma NothingStable()
    ensures !StableWindowed([], 1, 0.05)
  {
  }

  lemma SecondInterval(s: EngineState)
    requires WellFormed(s) && s == Step(CONFIG, Initial(CONFIG), MOVING).0
    ensures var (r, d) := Step(CONFIG, s, STALLED);
            d.stop && r.tpRaw == [8000.0, 0.0]
  {
    hide Step, Measured, Latched, WellFormed, StableAverages, StableWindowed, ResponsivenessOf, WindowRPM, FellBelow;
    var c := CONFIG;
    var t := Measured(c.p, s, STALLED);
    FirstInterval(0);
    assert Goodput(c.p, s, STALLED) == 0.0;
    MeasuredSeries(c.p, s, STALLED);
    MeasuredCounts(c.p, s, STALLED);
    LatchedSeries(c.p, t);
    StepFields(c, s, STALLED);
    StepReports(c, s, STALLED);
    StepRPM(c, s, STALLED);
    OneInterval(c.p, Latched(c.p, t), [], [PROBE]);
    ProbeResponds();
    StableOnce(ResponsivenessOf([], [PROBE], 95.0).total);
    StepStop(c, s, STALLED);
    var rpm := ResponsivenessOf([], [PROBE], 95.0).total;
    assert Step(c, s, STALLED).0.rpRaw == [rpm];
  }

  /** Stop does not imply that the summary calls throughput stable: the latch outlives the stability. */
  lemma StopNeedNotBeStable()
    ensures var h := [MOVING, STALLED];
            && Driven(CONFIG, h) && Decided(CONFIG, h).stop
            && !SummaryOf(CONFIG.p, After(CONFIG, h), [], []).throughputStable
  {
    hide Step, WellFormed, WindowOf, ResponsivenessOf, StableWindowed, StableAverages;
    var h := [MOVING, STALLED];
    assert [] + [MOVING] == [MOVING] && [MOVING] + [STALLED] == h;
    NoHistory(CONFIG);
    AfterAppend(CONFIG, [], MOVING);
    AfterAppend(CONFIG, [MOVING], STALLED);
    FirstInterval(0);
    SecondInterval(After(CONFIG, [MOVING]));
    NotStableAtZero(8000.0);
    Reaches(0);
  }

  lemma NoHistory(c: Config)
    requires c.p.Sane()
    ensures After(c, []) == Initial(c)
  {
  }

  lemma Reaches(bytes: int)
    requires 0 <= bytes <= 50
    ensures Driven(Buffered(bytes), [MOVING, STALLED])
    ensures After(Buffered(bytes), [MOVING]) == Step(Buffered(bytes), Initial(Buffered(bytes)), MOVING).0
  {
    hide Step, WellFormed;
    var c, h := Buffered(bytes), [MOVING, STALLED];
    assert Past(h) == [MOVING] && Past([MOVING]) == [];
    assert [] + [MOVING] == [MOVING];
    AfterAppend(c, [], MOVING);
    NoHistory(c);
    FirstInterval(bytes);
    assert Driven(c, []);
    assert Driven(c, [MOVING]);
  }
}
