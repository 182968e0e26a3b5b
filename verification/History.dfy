/**
 What the engine's incrementally updated fields mean: each of them is a function of the
 history of observations alone. The functions here read the history afresh; the engine
 keeps running totals, trackers, windows and latches.
 */
module History {
  import opened Series
  import opened Stats
  import opened Stability
  import opened Engine
  import opened Steps

  /** The state after the observations h. */
  function After(c: Config, h: seq<Observation>): (s: EngineState)
    requires c.p.Sane()
    ensures WellFormed(s)
  {
    hide WellFormed;
    if h == [] then Initial(c) else Step(c, After(c, Past(h)), h[|h| - 1]).0
  }

  function Past(h: seq<Observation>): seq<Observation>
    requires h != []
  {
    h[..|h| - 1]
  }

  /** What the engine decided on the last interval of h. */
  function Decided(c: Config, h: seq<Observation>): Decision
    requires c.p.Sane() && h != []
  {
    Step(c, After(c, Past(h)), h[|h| - 1]).1
  }

  lemma AfterAppend(c: Config, h: seq<Observation>, o: Observation)
    requires c.p.Sane()
    ensures After(c, h + [o]) == Step(c, After(c, h), o).0 && Decided(c, h + [o]) == Step(c, After(c, h), o).1
  {
    hide Step;
    assert Past(h + [o]) == h;
  }

  /** Feeds one more interval to an engine whose history is h. */
  method Feed(engine: Engine, ghost h: seq<Observation>, o: Observation) returns (d: Decision)
    requires engine.Valid() && engine.State() == After(engine.c, h)
    modifies engine, engine.tp, engine.rp
    ensures engine.Valid() && engine.State() == After(engine.c, h + [o])
    ensures engine.rp == old(engine.rp) && (engine.tp == old(engine.tp) || fresh(engine.tp))
    ensures d == Decided(engine.c, h + [o])
  {
    hide After, Step, Decided, WellFormed;
    AfterAppend(engine.c, h, o);
    d := engine.Interval(o);
  }

  // ---- Reading the history ----

  /** Bytes counted in interval i (counted from 1). */
  function BytesAt(h: seq<Observation>, i: int): int
    requires 1 <= i <= |h|
  {
    h[i - 1].bytes - (if i == 1 then 0 else h[i - 2].bytes)
  }

  function GoodputAt(c: Config, h: seq<Observation>, i: int): real
    requires c.p.Sane() && 1 <= i <= |h|
  {
    Rate(BytesAt(h, i), Elapsed(c.p, h[i - 1]))
  }

  function ForeignOf(h: seq<Observation>): (r: seq<seq<LatencySample>>)
    ensures |r| == |h|
  {
    seq(|h|, i requires 0 <= i < |h| => h[i].foreign)
  }

  function SelfOf(h: seq<Observation>): (r: seq<seq<LatencySample>>)
    ensures |r| == |h|
  {
    seq(|h|, i requires 0 <= i < |h| => h[i].self)
  }

  /** The flows that observing h calls for: at first the initial ones, then each step of the ramp. */
  function Added(c: Config, h: seq<Observation>): int
    requires c.p.Sane()
    decreases |h|, 11
  {
    if h == [] then c.InitialFlows()
    else if Stops(c, h) || Drained(c, h) || RampOver(c, h) then 0
    else StepSize(c, h[|h| - 1].flows)
  }

  /** The send-buffer credit of those flows, counted before it reaches the wire. */
  function SendCredit(c: Config, h: seq<Observation>): int
    requires c.p.Sane()
    decreases |h|, 12
  {
    Added(c, h) * c.p.sendBufferBytes
  }

  /** The last interval of h counts more send-buffer credit than the tolerated share of its bytes. */
  predicate Drained(c: Config, h: seq<Observation>)
    requires c.p.Sane() && h != []
    decreases |h|, 0
  {
    Material(SendCredit(c, Past(h)), BytesAt(h, |h|), c.p.stdDevTolerance)
  }

  /** The last interval of h was measured with an unchanged number of flows. */
  predicate Held(c: Config, h: seq<Observation>)
    requires c.p.Sane() && h != []
    decreases |h|, 1
  {
    !Drained(c, h) && Added(c, Past(h)) == 0
  }

  /** Interval numbers in order, each in from..n. */
  predicate Ascending(r: seq<int>, from: int, n: nat) {
    && (forall k :: 0 <= k < |r| ==> 1 <= r[k] <= n && from <= r[k])
    && (forall j, k :: 0 <= j < k < |r| ==> r[j] < r[k])
  }

  lemma AscendingGrows(r: seq<int>, from: int, n: nat)
    requires Ascending(r, from, n)
    ensures Ascending(r, from, n + 1)
    ensures from <= n + 1 ==> Ascending(r + [n + 1], from, n + 1)
  {
  }

  /** The intervals from the given one on that were not drain intervals. */
  function MeasuredFrom(c: Config, h: seq<Observation>, from: int): (r: seq<int>)
    requires c.p.Sane()
    ensures Ascending(r, from, |h|)
    decreases |h|, 1
  {
    hide Ascending;
    if h == [] then
      assert Ascending([], from, 0) by { NoneAscending(from); }
      []
    else
      var before := MeasuredFrom(c, Past(h), from);
      AscendingGrows(before, from, |h| - 1);
      if from <= |h| && !Drained(c, h) then before + [|h|] else before
  }

  lemma NoneAscending(from: int)
    ensures Ascending([], from, 0)
  {
  }

  function GoodputsFrom(c: Config, h: seq<Observation>, from: int): (r: seq<real>)
    requires c.p.Sane()
    ensures |r| == |MeasuredFrom(c, h, from)|
    decreases |h|, 2
  {
    var idx := MeasuredFrom(c, h, from);
    seq(|idx|, k requires 0 <= k < |idx| => GoodputAt(c, h, idx[k]))
  }

  /** The first interval at which the goodputs measured from the given one on were stable; 0 for none. */
  function FirstStable(c: Config, h: seq<Observation>, from: int): nat
    requires c.p.Sane()
    decreases |h|, 3
  {
    if h == [] then 0
    else
      var first := FirstStable(c, Past(h), from);
      if first == 0 && StableAverages(GoodputsFrom(c, h, from), c.p.mad, c.p.stdDevTolerance) then |h| else first
  }

  /** The last interval of h is a hold whose goodput fell below the moving average since the last restart. */
  predicate Restarts(c: Config, h: seq<Observation>)
    requires c.p.Sane() && h != []
    decreases |h|, 3
  {
    && Held(c, h)
    && Dropped(c.p, GoodputsFrom(c, Past(h), LastRestart(c, Past(h))), GoodputAt(c, h, |h|))
  }

  /** The last interval at which goodput tracking started afresh; 0 when it never did. */
  function LastRestart(c: Config, h: seq<Observation>): (r: nat)
    requires c.p.Sane()
    ensures r <= |h|
    decreases |h|, 4
  {
    if h == [] then 0 else if Restarts(c, h) then |h| else LastRestart(c, Past(h))
  }

  /** The interval at which goodput became stable since the last restart; 0 when it has not. */
  function StableSince(c: Config, h: seq<Observation>): nat
    requires c.p.Sane()
    decreases |h|, 5
  {
    FirstStable(c, h, LastRestart(c, h))
  }

  /** Working conditions in the last interval of h: the ramp was over before it, or goodput is stable. */
  predicate UnderLoad(c: Config, h: seq<Observation>)
    requires c.p.Sane() && h != []
    decreases |h|, 6
  {
    RampOver(c, Past(h)) || StableSince(c, h) != 0
  }

  /** Responsiveness over the samples of the last mad intervals of h. */
  function LoadedRPM(c: Config, h: seq<Observation>): real
    requires c.p.Sane()
  {
    ResponsivenessOf(Flatten(Trailing(ForeignOf(h), c.p.mad)), Flatten(Trailing(SelfOf(h), c.p.mad)),
                     c.p.trimmedMeanPercent).total
  }

  /** The positive responsiveness figures of the intervals under working conditions, in order. */
  function RPMs(c: Config, h: seq<Observation>): seq<real>
    requires c.p.Sane()
    decreases |h|, 7
  {
    if h == [] then []
    else RPMs(c, Past(h)) + (if UnderLoad(c, h) && LoadedRPM(c, h) > 0.0 then [LoadedRPM(c, h)] else [])
  }

  /** Goodput has been stable since the last restart, and responsiveness is stable now. */
  predicate Stops(c: Config, h: seq<Observation>)
    requires c.p.Sane()
    decreases |h|, 8
  {
    StableSince(c, h) != 0 && StableWindowed(RPMs(c, h), c.p.mad, c.p.stdDevTolerance)
  }

  /** Some interval that did not stop the phase found every allowed flow open. */
  predicate Full(c: Config, h: seq<Observation>)
    requires c.p.Sane()
    decreases |h|, 9
  {
    h != [] && (Full(c, Past(h)) || (!Stops(c, h) && h[|h| - 1].flows >= c.maxFlows))
  }

  /** The ramp ended because the last flows added bought too little goodput. */
  predicate Saturated(c: Config, h: seq<Observation>)
    requires c.p.Sane()
    decreases |h|, 9
  {
    h != [] &&
    (|| Saturated(c, Past(h))
     || (&& !Full(c, Past(h)) && !Stops(c, h) && h[|h| - 1].flows < c.maxFlows && !Drained(c, h)
         && var last := LastAdd(c, Past(h));
            last != 0 && NoGain(c.p.rampGainTolerance, GoodputAt(c, h, last), GoodputAt(c, h, |h|))))
  }

  predicate RampOver(c: Config, h: seq<Observation>)
    requires c.p.Sane()
    decreases |h|, 10
  {
    Full(c, h) || Saturated(c, h)
  }

  /** The last interval after which flows were added; 0 when none were. */
  function LastAdd(c: Config, h: seq<Observation>): (r: nat)
    requires c.p.Sane()
    ensures r <= |h|
    decreases |h|, 12
  {
    if h == [] then 0 else if Added(c, h) != 0 then |h| else LastAdd(c, Past(h))
  }

  predicate EverStopped(c: Config, h: seq<Observation>)
    requires c.p.Sane()
  {
    h != [] && (Stops(c, h) || EverStopped(c, Past(h)))
  }

  /** The best goodput of any measured interval. */
  function PeakOf(c: Config, h: seq<Observation>): real
    requires c.p.Sane()
  {
    if h == [] then 0.0
    else
      var best := PeakOf(c, Past(h));
      if !Drained(c, h) && GoodputAt(c, h, |h|) > best then GoodputAt(c, h, |h|) else best
  }

  /** The bound of the latest sustained window measured from the given interval on. */
  function LatestBound(c: Config, h: seq<Observation>, from: int): Bound
    requires c.p.Sane()
  {
    if h == [] then NO_BOUND
    else
      var g, idx := GoodputsFrom(c, h, from), MeasuredFrom(c, h, from);
      if from <= |h| && !Drained(c, h) && Sustained(c.p, g, idx) then
        BoundOf(c.p, g, idx, ForeignOf(h), SelfOf(h))
      else LatestBound(c, Past(h), from)
  }

  // ---- Online equals offline ----

  predicate Counted(s: EngineState, h: seq<Observation>) {
    && s.intervals == |h|
    && s.lastBytes == (if h == [] then 0 else h[|h| - 1].bytes)
    && s.foreign == ForeignOf(h) && s.self == SelfOf(h)
  }

  predicate Tracks(c: Config, s: EngineState, h: seq<Observation>, restart: int)
    requires c.p.Sane()
  {
    && s.tpRaw == GoodputsFrom(c, h, restart)
    && s.holdG == GoodputsFrom(c, h, restart)
    && s.holdIdx == MeasuredFrom(c, h, restart)
  }

  predicate Judged(c: Config, s: EngineState, h: seq<Observation>, restart: int)
    requires c.p.Sane()
  {
    && s.steadyFrom == FirstStable(c, h, restart)
    && (s.goodputStable <==> s.steadyFrom != 0)
    && s.lb == LatestBound(c, h, restart)
  }

  /** The state of the ramp. */
  predicate Ramping(c: Config, s: EngineState, h: seq<Observation>)
    requires c.p.Sane()
  {
    && s.addedInto == Added(c, h)
    && s.drainCredit == SendCredit(c, h)
    && s.rampDone == RampOver(c, h)
    && s.awaitGain == (LastAdd(c, h) != 0 && !Saturated(c, h))
    && s.beforeAdd == if LastAdd(c, h) == 0 then 0.0 else GoodputAt(c, h, LastAdd(c, h))
  }

  predicate Responds(c: Config, s: EngineState, h: seq<Observation>)
    requires c.p.Sane()
  {
    s.rpRaw == RPMs(c, h) && s.stopped == EverStopped(c, h)
  }

  lemma {:induction false} NothingYet(c: Config, h: seq<Observation>, from: int)
    requires c.p.Sane() && from > |h|
    ensures MeasuredFrom(c, h, from) == [] && GoodputsFrom(c, h, from) == []
    ensures FirstStable(c, h, from) == 0 && LatestBound(c, h, from) == NO_BOUND
  {
    hide Drained;
    if h == [] {
    } else {
      NothingYet(c, Past(h), from);
    }
  }

  lemma GoodputsGrow(c: Config, h: seq<Observation>, from: int)
    requires c.p.Sane() && h != []
    ensures GoodputsFrom(c, h, from) == GoodputsFrom(c, Past(h), from)
              + (if from <= |h| && !Drained(c, h) then [GoodputAt(c, h, |h|)] else [])
  {
    hide Drained, Rate;
    var a, b := MeasuredFrom(c, Past(h), from), MeasuredFrom(c, h, from);
    forall k | 0 <= k < |a| ensures GoodputAt(c, h, a[k]) == GoodputAt(c, Past(h), a[k]) {
    }
  }

  /** The counters and sample logs are those of the history. */
  lemma {:induction false} CountedOnline(c: Config, h: seq<Observation>)
    requires c.p.Sane()
    ensures Counted(After(c, h), h)
  {
    if h == [] {
    } else {
      hide Step, WellFormed;
      CountedOnline(c, Past(h));
      StepCounts(c, After(c, Past(h)), h[|h| - 1]);
      CountedStep(After(c, Past(h)), After(c, h), h);
    }
  }

  lemma CountedStep(s: EngineState, r: EngineState, h: seq<Observation>)
    requires h != [] && Counted(s, Past(h))
    requires var o := h[|h| - 1];
             && r.intervals == s.intervals + 1 && r.lastBytes == o.bytes
             && r.foreign == s.foreign + [o.foreign] && r.self == s.self + [o.self]
    ensures Counted(r, h)
  {
    assert ForeignOf(h) == ForeignOf(Past(h)) + [h[|h| - 1].foreign];
    assert SelfOf(h) == SelfOf(Past(h)) + [h[|h| - 1].self];
  }

  /** What the engine makes of the last interval of h, in terms of its state before it. */
  lemma GoodputOnline(c: Config, h: seq<Observation>)
    requires c.p.Sane() && h != []
    ensures Goodput(c.p, After(c, Past(h)), h[|h| - 1]) == GoodputAt(c, h, |h|)
    ensures Decided(c, h).drain == Drains(c.p, After(c, Past(h)), h[|h| - 1])
    ensures Decided(c, h).hold == Holds(c.p, After(c, Past(h)), h[|h| - 1])
  {
    hide Rate, Step, Drains, WellFormed, After;
    CountedOnline(c, Past(h));
    StepJudges(c, After(c, Past(h)), h[|h| - 1]);
  }

  /** Drain and hold intervals are those of the history, given the state of the ramp before. */
  lemma DrainOnline(c: Config, h: seq<Observation>)
    requires c.p.Sane() && h != [] && Ramping(c, After(c, Past(h)), Past(h))
    ensures Drains(c.p, After(c, Past(h)), h[|h| - 1]) == Drained(c, h)
    ensures Holds(c.p, After(c, Past(h)), h[|h| - 1]) == Held(c, h)
  {
    hide After, Added, SendCredit, Ramping, ForeignOf, SelfOf, Material;
    CountedOnline(c, Past(h));
    CreditOnline(c, Past(h));
  }

  lemma CreditOnline(c: Config, h: seq<Observation>)
    requires c.p.Sane() && Ramping(c, After(c, h), h)
    ensures After(c, h).addedInto == Added(c, h) && After(c, h).drainCredit == SendCredit(c, h)
    ensures After(c, h).rampDone == RampOver(c, h)
  {
    hide After, Added, SendCredit, RampOver, LastAdd, Saturated, GoodputAt;
  }

  lemma ChangesOnline(c: Config, h: seq<Observation>)
    requires c.p.Sane() && h != [] && Ramping(c, After(c, Past(h)), Past(h))
    requires Tracks(c, After(c, Past(h)), Past(h), LastRestart(c, Past(h)))
    ensures Changes(c.p, After(c, Past(h)), h[|h| - 1]) == Restarts(c, h)
  {
    hide After, Decided, Goodput, GoodputAt, Dropped, Holds, Held, Ramping, GoodputsFrom, MeasuredFrom;
    GoodputOnline(c, h);
    DrainOnline(c, h);
  }

  /** The series after an interval that is not measured, and after one that is. */
  lemma SeriesStep(c: Config, h: seq<Observation>, from: int)
    requires c.p.Sane() && h != [] && from <= |h|
    ensures Drained(c, h) ==> GoodputsFrom(c, h, from) == GoodputsFrom(c, Past(h), from)
                              && MeasuredFrom(c, h, from) == MeasuredFrom(c, Past(h), from)
    ensures !Drained(c, h) ==> GoodputsFrom(c, h, from) == GoodputsFrom(c, Past(h), from) + [GoodputAt(c, h, |h|)]
                               && MeasuredFrom(c, h, from) == MeasuredFrom(c, Past(h), from) + [|h|]
  {
    hide Drained, GoodputAt, GoodputsFrom;
    GoodputsGrow(c, h, from);
    if Drained(c, h) {
      assert GoodputsFrom(c, h, from) == GoodputsFrom(c, Past(h), from);
    }
  }

  /** Goodput series and restart point agree with the history after one more interval. */
  lemma TracksStep(c: Config, h: seq<Observation>)
    requires c.p.Sane() && h != [] && Ramping(c, After(c, Past(h)), Past(h))
    requires Tracks(c, After(c, Past(h)), Past(h), LastRestart(c, Past(h)))
    ensures Tracks(c, After(c, h), h, LastRestart(c, h))
  {
    hide Goodput, GoodputAt, Drains, Changes, Restarts, Latched, Measured, Step, WellFormed, Ramping;
    hide Drained, GoodputsFrom, MeasuredFrom;
    var s, o := After(c, Past(h)), h[|h| - 1];
    CountedOnline(c, Past(h));
    GoodputOnline(c, h);
    DrainOnline(c, h);
    ChangesOnline(c, h);
    StepFields(c, s, o);
    LatchedSeries(c.p, Measured(c.p, s, o));
    MeasuredSeries(c.p, s, o);
    SeriesStep(c, h, LastRestart(c, h));
    NothingYet(c, Past(h), |h|);
    if Drained(c, h) {
      DrainKeepsSeries(c.p, s, o);
    }
  }

  /** Latch and bound agree with the history after one more interval. */
  lemma JudgedStep(c: Config, h: seq<Observation>)
    requires c.p.Sane() && h != [] && Ramping(c, After(c, Past(h)), Past(h))
    requires Tracks(c, After(c, Past(h)), Past(h), LastRestart(c, Past(h)))
    requires Judged(c, After(c, Past(h)), Past(h), LastRestart(c, Past(h)))
    requires Tracks(c, After(c, h), h, LastRestart(c, h))
    ensures Judged(c, After(c, h), h, LastRestart(c, h))
  {
    hide Goodput, GoodputAt, Drains, Changes, Restarts, Sustained, BoundOf, Latched, Measured, Step, WellFormed;
    hide StableAverages, GoodputsFrom, MeasuredFrom, Drained, Ramping;
    var s, o := After(c, Past(h)), h[|h| - 1];
    var m := Measured(c.p, s, o);
    CountedOnline(c, h);
    CountedOnline(c, Past(h));
    GoodputOnline(c, h);
    DrainOnline(c, h);
    ChangesOnline(c, h);
    StepFields(c, s, o);
    LatchedSeries(c.p, m);
    MeasuredSeries(c.p, s, o);
    MeasuredCounts(c.p, s, o);
    NothingYet(c, Past(h), |h|);
    if Drained(c, h) {
      DrainKeepsSeries(c.p, s, o);
    } else {
      MeasuredBound(c.p, s, o);
    }
  }

  lemma PeakStep(c: Config, h: seq<Observation>)
    requires c.p.Sane() && h != [] && Ramping(c, After(c, Past(h)), Past(h))
    requires After(c, Past(h)).peak == PeakOf(c, Past(h))
    ensures After(c, h).peak == PeakOf(c, h)
  {
    hide Goodput, GoodputAt, Drains, Latched, Measured, Step, WellFormed, Drained, Ramping;
    var s, o := After(c, Past(h)), h[|h| - 1];
    GoodputOnline(c, h);
    DrainOnline(c, h);
    StepFields(c, s, o);
    LatchedSeries(c.p, Measured(c.p, s, o));
    MeasuredCounts(c.p, s, o);
  }

  /** The responsiveness the engine computes is that of the last intervals of the history. */
  lemma RPMOnline(c: Config, h: seq<Observation>)
    requires c.p.Sane() && h != []
    requires After(c, Past(h)).rampDone == RampOver(c, Past(h))
    requires Judged(c, After(c, h), h, LastRestart(c, h))
    ensures Decided(c, h).rpm == if UnderLoad(c, h) then LoadedRPM(c, h) else 0.0
    ensures Decided(c, h).responsivenessStable ==
              (UnderLoad(c, h) && StableWindowed(After(c, h).rpRaw, c.p.mad, c.p.stdDevTolerance))
  {
    hide Step, After, WellFormed, Latched, Measured, ResponsivenessOf, Flatten, StableWindowed;
    hide FirstStable, LastRestart, LatestBound, RampOver;
    var s, o := After(c, Past(h)), h[|h| - 1];
    CountedOnline(c, h);
    LastStep(c, h);
    StepVerdict(c, s, o);
  }

  lemma LastStep(c: Config, h: seq<Observation>)
    requires c.p.Sane() && h != []
    ensures After(c, h) == Step(c, After(c, Past(h)), h[|h| - 1]).0
  {
    hide Step;
  }

  /** Responsiveness series and stops agree with the history after one more interval. */
  lemma RespondsStep(c: Config, h: seq<Observation>)
    requires c.p.Sane() && h != [] && Responds(c, After(c, Past(h)), Past(h))
    requires After(c, Past(h)).rampDone == RampOver(c, Past(h))
    requires Judged(c, After(c, h), h, LastRestart(c, h))
    ensures Responds(c, After(c, h), h) && Decided(c, h).stop == Stops(c, h)
  {
    hide Step, WellFormed, After, LoadedRPM, StableWindowed, FirstStable, LastRestart, LatestBound, UnderLoad;
    var s, o := After(c, Past(h)), h[|h| - 1];
    LastStep(c, h);
    StepReports(c, s, o);
    RPMOnline(c, h);
    StepStop(c, s, o);
    StepStops(c, s, o);
    assert After(c, h).rpRaw == RPMs(c, h);
    assert Decided(c, h).stop == Stops(c, h);
    assert After(c, h).stopped == EverStopped(c, h);
  }

  lemma GoodputEarlier(c: Config, h: seq<Observation>, i: int)
    requires c.p.Sane() && h != [] && 1 <= i <= |Past(h)|
    ensures GoodputAt(c, h, i) == GoodputAt(c, Past(h), i)
  {
  }

  /** The ramp agrees with the history after one more interval. */
  lemma RampingStep(c: Config, h: seq<Observation>)
    requires c.p.Sane() && h != [] && Ramping(c, After(c, Past(h)), Past(h))
    requires Decided(c, h).stop == Stops(c, h)
    ensures Ramping(c, After(c, h), h) && Decided(c, h).addFlows == Added(c, h)
  {
    hide Step, WellFormed, After, Drained, Drains, Holds, Stops, NoGain, StepSize, Goodput, GoodputAt;
    var s, o := After(c, Past(h)), h[|h| - 1];
    LastStep(c, h);
    GoodputOnline(c, h);
    DrainOnline(c, h);
    StepRamp(c, s, o);
    if o.flows < c.maxFlows {
      StepAdds(c, o.flows);
    }
    if LastAdd(c, Past(h)) != 0 {
      GoodputEarlier(c, h, LastAdd(c, Past(h)));
    }
    var r := After(c, h);
    assert r.rampDone == RampOver(c, h);
    assert Decided(c, h).addFlows == Added(c, h);
    assert r.addedInto == Added(c, h);
    assert r.drainCredit == SendCredit(c, h);
    assert r.awaitGain == (LastAdd(c, h) != 0 && !Saturated(c, h));
    assert r.beforeAdd == if LastAdd(c, h) == 0 then 0.0 else GoodputAt(c, h, LastAdd(c, h));
  }

  /** What the engine knows after h, read off the history. */
  ghost predicate Online(c: Config, h: seq<Observation>)
    requires c.p.Sane()
  {
    var s, restart := After(c, h), LastRestart(c, h);
    && Counted(s, h)
    && Tracks(c, s, h, restart)
    && Judged(c, s, h, restart)
    && s.peak == PeakOf(c, h)
    && Responds(c, s, h)
    && Ramping(c, s, h)
  }

  lemma OnlineStart(c: Config)
    requires c.p.Sane()
    ensures Online(c, [])
  {
  }

  /**
   Online equals offline: whatever was observed, every field of the engine's state is what a
   reader of the observations alone would compute.
   */
  lemma {:induction false} OnlineEqualsOffline(c: Config, h: seq<Observation>)
    requires c.p.Sane()
    ensures Online(c, h)
    ensures h != [] ==> Decided(c, h).stop == Stops(c, h) && Decided(c, h).addFlows == Added(c, h)
  {
    hide After, Decided, Tracks, Judged, Ramping, Responds, PeakOf, LastRestart, Stops, Added;
    if h == [] {
      OnlineStart(c);
    } else {
      OnlineEqualsOffline(c, Past(h));
      CountedOnline(c, h);
      TracksStep(c, h);
      JudgedStep(c, h);
      PeakStep(c, h);
      CreditOnline(c, Past(h));
      RespondsStep(c, h);
      RampingStep(c, h);
    }
  }

  /** The engine's whole state, computed from the observations alone. */
  function StateOf(c: Config, h: seq<Observation>): EngineState
    requires c.p.Sane()
  {
    var restart, last := LastRestart(c, h), LastAdd(c, h);
    EngineState(|h|, if h == [] then 0 else h[|h| - 1].bytes, PeakOf(c, h), StableSince(c, h) != 0, EverStopped(c, h),
      ForeignOf(h), SelfOf(h), GoodputsFrom(c, h, restart), RPMs(c, h),
      Added(c, h), last != 0 && !Saturated(c, h), if last == 0 then 0.0 else GoodputAt(c, h, last),
      RampOver(c, h), SendCredit(c, h), StableSince(c, h),
      GoodputsFrom(c, h, restart), MeasuredFrom(c, h, restart), LatestBound(c, h, restart))
  }

  /** The decision on the last interval of h, computed from the observations alone. */
  function VerdictOf(c: Config, h: seq<Observation>): Decision
    requires c.p.Sane() && h != []
  {
    Decision(Added(c, h), Stops(c, h), |h|, CurrentOf(GoodputsFrom(c, h, LastRestart(c, h)), c.p.mad),
      if UnderLoad(c, h) then LoadedRPM(c, h) else 0.0, StableSince(c, h) != 0,
      UnderLoad(c, h) && StableWindowed(RPMs(c, h), c.p.mad, c.p.stdDevTolerance), Held(c, h), Drained(c, h))
  }

  /** State and decisions of the engine are functions of the observations. */
  lemma EngineIsItsHistory(c: Config, h: seq<Observation>)
    requires c.p.Sane()
    ensures After(c, h) == StateOf(c, h)
    ensures h != [] ==> Decided(c, h) == VerdictOf(c, h)
  {
    hide After, Step, WellFormed, Added, SendCredit, Drained, Held, Stops, RampOver, LastAdd;
    hide Saturated, GoodputAt, PeakOf;
    hide LastRestart, FirstStable, LatestBound, GoodputsFrom, MeasuredFrom, UnderLoad, LoadedRPM, RPMs, EverStopped;
    hide StableWindowed, CurrentOf, ForeignOf, SelfOf, Drains, Holds;
    OnlineEqualsOffline(c, h);
    if h != [] {
      OnlineEqualsOffline(c, Past(h));
      LastStep(c, h);
      GoodputOnline(c, h);
      DrainOnline(c, h);
      RPMOnline(c, h);
      StepVerdict(c, After(c, Past(h)), h[|h| - 1]);
    }
  }
}
