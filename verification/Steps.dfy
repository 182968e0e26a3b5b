/**
 What one interval does to each part of the engine's state, and what it decides: the facts
 that the readings of whole histories rest on.
 */
module Steps {
  import opened Series
  import opened Stats
  import opened Stability
  import opened Engine

  lemma RespondedFields(p: Params, s: EngineState)
    requires p.Sane()
    ensures var r := Responded(p, s); r == s.(rpRaw := r.rpRaw)
  {
    hide WindowRPM;
  }

  lemma RampedFields(c: Config, s: EngineState, flows: int, drain: bool, g: real)
    ensures var r := Ramped(c, s, flows, drain, g).0;
            r == s.(rampDone := r.rampDone, awaitGain := r.awaitGain, addedInto := r.addedInto,
                    beforeAdd := r.beforeAdd, drainCredit := r.drainCredit)
  {
    hide NoGain, StepSize;
  }

  /** After measuring and latching, a step changes only the ramp, the RPM series and the stop flag. */
  lemma StepFields(c: Config, s: EngineState, o: Observation)
    requires c.p.Sane() && WellFormed(s)
    ensures var r, m := Step(c, s, o).0, Latched(c.p, Measured(c.p, s, o));
            r == m.(rpRaw := r.rpRaw, stopped := r.stopped, rampDone := r.rampDone, awaitGain := r.awaitGain,
                    addedInto := r.addedInto, beforeAdd := r.beforeAdd, drainCredit := r.drainCredit)
  {
    hide Measured, Latched, Responded, Ramped, Goodput, Drains, Holds, WindowRPM, StableWindowed, CurrentOf, WellFormed;
    var m := Latched(c.p, Measured(c.p, s, o));
    RespondedFields(c.p, m);
    RampedFields(c, Responded(c.p, m), o.flows, Drains(c.p, s, o), Goodput(c.p, s, o));
  }

  lemma RefreshedFields(p: Params, s: EngineState)
    requires p.Sane() && WellFormed(s)
    ensures var r := Refreshed(p, s); r == s.(lb := r.lb)
  {
    hide Sustained, BoundOf, WellFormed;
  }

  /** Measuring ends by refreshing the bound of the extended series. */
  lemma RefreshMeasured(p: Params, s: EngineState, o: Observation)
    requires p.Sane() && WellFormed(s)
    ensures !Drains(p, s, o) ==>
              var q := Pushed(Prepared(Recorded(s, o), Goodput(p, s, o), Changes(p, s, o)), Goodput(p, s, o));
              var m := Measured(p, s, o);
              WellFormed(q) && m == Refreshed(p, q) && m == q.(lb := m.lb)
  {
    hide Drains, Goodput, Changes, Refreshed, WellFormed;
    if !Drains(p, s, o) {
      var g := Goodput(p, s, o);
      RecordedWellFormed(s, o);
      PreparedWellFormed(Recorded(s, o), g, Changes(p, s, o));
      PushedWellFormed(Prepared(Recorded(s, o), g, Changes(p, s, o)), g);
      RefreshedFields(p, Pushed(Prepared(Recorded(s, o), g, Changes(p, s, o)), g));
    }
  }

  lemma MeasuredCounts(p: Params, s: EngineState, o: Observation)
    requires p.Sane() && WellFormed(s)
    ensures var m, g := Measured(p, s, o), Goodput(p, s, o);
            && m.intervals == s.intervals + 1 && m.lastBytes == o.bytes
            && m.foreign == s.foreign + [o.foreign] && m.self == s.self + [o.self]
            && m.rpRaw == s.rpRaw && m.rampDone == s.rampDone
            && m.awaitGain == s.awaitGain && m.beforeAdd == s.beforeAdd
            && m.addedInto == 0 && m.drainCredit == 0
            && m.peak == (if !Drains(p, s, o) && g > s.peak then g else s.peak)
  {
    hide Drains, Goodput, Changes, Refreshed, WellFormed;
    RefreshMeasured(p, s, o);
  }

  /** What measuring does to the series: nothing, start afresh, or append. */
  lemma MeasuredSeries(p: Params, s: EngineState, o: Observation)
    requires p.Sane() && WellFormed(s)
    ensures var m, g, n := Measured(p, s, o), Goodput(p, s, o), s.intervals + 1;
            if Drains(p, s, o) then
              m.tpRaw == s.tpRaw && m.holdG == s.holdG && m.holdIdx == s.holdIdx
              && m.steadyFrom == s.steadyFrom && m.goodputStable == s.goodputStable && m.lb == s.lb
            else
              var q := if Changes(p, s, o) then Restarted(s) else s;
              m.tpRaw == q.tpRaw + [g] && m.holdG == q.holdG + [g] && m.holdIdx == q.holdIdx + [n]
              && m.steadyFrom == q.steadyFrom && m.goodputStable == q.goodputStable
  {
    hide Drains, Goodput, Changes, Refreshed, WellFormed;
    RefreshMeasured(p, s, o);
  }

  /** Measuring refreshes the bound exactly when the trailing window is sustained. */
  lemma MeasuredBound(p: Params, s: EngineState, o: Observation)
    requires p.Sane() && WellFormed(s) && !Drains(p, s, o)
    ensures var m := Measured(p, s, o);
            && |m.holdG| == |m.holdIdx|
            && if Sustained(p, m.holdG, m.holdIdx) then
                 && 1 <= m.holdIdx[|m.holdIdx| - p.mad] <= m.holdIdx[|m.holdIdx| - 1] <= |m.foreign| == |m.self|
                 && m.lb == BoundOf(p, m.holdG, m.holdIdx, m.foreign, m.self)
               else m.lb == if Changes(p, s, o) then NO_BOUND else s.lb
  {
    hide Drains, Goodput, Changes, BoundOf, DeviationBelow, Variance, Mean;
  }

  lemma MeasuredStopped(p: Params, s: EngineState, o: Observation)
    requires p.Sane() && WellFormed(s)
    ensures Measured(p, s, o).stopped == s.stopped
  {
    hide Drains, Goodput, Changes, Refreshed, WellFormed;
    RefreshMeasured(p, s, o);
  }

  lemma DrainKeepsSeries(p: Params, s: EngineState, o: Observation)
    requires p.Sane() && Drains(p, s, o)
    ensures !Changes(p, s, o)
  {
    hide Drains, Dropped, Goodput;
  }

  lemma DrainNeedsCredit(p: Params, s: EngineState, o: Observation)
    ensures Drains(p, s, o) ==> s.drainCredit > 0
  {
  }

  lemma LatchedSeries(p: Params, m: EngineState)
    requires p.Sane()
    ensures var r := Latched(p, m);
            && r == m.(goodputStable := r.goodputStable, steadyFrom := r.steadyFrom)
            && r.goodputStable == (m.goodputStable || StableAverages(m.tpRaw, p.mad, p.stdDevTolerance))
            && (r.steadyFrom ==
                  if !m.goodputStable && r.goodputStable && m.steadyFrom == 0 then m.intervals else m.steadyFrom)
  {
    hide StableAverages;
  }

  lemma StepCounts(c: Config, s: EngineState, o: Observation)
    requires c.p.Sane() && WellFormed(s)
    ensures var r := Step(c, s, o).0;
            && r.intervals == s.intervals + 1 && r.lastBytes == o.bytes
            && r.foreign == s.foreign + [o.foreign] && r.self == s.self + [o.self]
  {
    hide Step, Measured, Latched, WellFormed;
    StepFields(c, s, o);
    MeasuredCounts(c.p, s, o);
    LatchedSeries(c.p, Measured(c.p, s, o));
  }

  lemma StepReports(c: Config, s: EngineState, o: Observation)
    requires c.p.Sane() && WellFormed(s)
    ensures var (r, d) := Step(c, s, o);
            r.rpRaw == s.rpRaw + if d.rpm > 0.0 then [d.rpm] else []
  {
    hide Measured, Latched, Ramped, Goodput, Drains, Holds, WindowRPM, StableWindowed, CurrentOf, WellFormed;
    var m := Latched(c.p, Measured(c.p, s, o));
    MeasuredCounts(c.p, s, o);
    LatchedSeries(c.p, Measured(c.p, s, o));
    RampedFields(c, Responded(c.p, m), o.flows, Drains(c.p, s, o), Goodput(c.p, s, o));
  }

  lemma StepJudges(c: Config, s: EngineState, o: Observation)
    requires c.p.Sane() && WellFormed(s)
    ensures var d := Step(c, s, o).1;
            d.drain == Drains(c.p, s, o) && d.hold == Holds(c.p, s, o)
  {
    hide Measured, Latched, Responded, Ramped, Goodput, Drains, Holds, WindowRPM, StableWindowed, CurrentOf, WellFormed;
  }

  /** The ramp's fields and the flows asked for, after one interval. */
  lemma StepRamp(c: Config, s: EngineState, o: Observation)
    requires c.p.Sane() && WellFormed(s)
    ensures var (r, d), done := Step(c, s, o), s.rampDone || o.flows >= c.maxFlows;
            && (d.addFlows == 0 ==> r.addedInto == 0 && r.drainCredit == 0)
            && if d.stop then
                 && d.addFlows == 0 && r.rampDone == s.rampDone
                 && r.awaitGain == s.awaitGain && r.beforeAdd == s.beforeAdd
               else if d.drain || done then
                 d.addFlows == 0 && r.rampDone == done && r.awaitGain == s.awaitGain && r.beforeAdd == s.beforeAdd
               else if s.awaitGain && NoGain(c.p.rampGainTolerance, s.beforeAdd, Goodput(c.p, s, o)) then
                 d.addFlows == 0 && r.rampDone && !r.awaitGain && r.beforeAdd == s.beforeAdd
               else
                 && d.addFlows == StepSize(c, o.flows) && !r.rampDone && r.awaitGain
                 && r.beforeAdd == Goodput(c.p, s, o)
                 && r.addedInto == d.addFlows && r.drainCredit == d.addFlows * c.p.sendBufferBytes
  {
    hide Measured, Latched, Goodput, Drains, Holds, WindowRPM, StableWindowed, CurrentOf, NoGain, WellFormed;
    var m := Latched(c.p, Measured(c.p, s, o));
    MeasuredCounts(c.p, s, o);
    LatchedSeries(c.p, Measured(c.p, s, o));
    RespondedFields(c.p, m);
  }

  lemma StepStops(c: Config, s: EngineState, o: Observation)
    requires c.p.Sane() && WellFormed(s)
    ensures Step(c, s, o).0.stopped == (s.stopped || Step(c, s, o).1.stop)
  {
    hide Measured, Latched, Goodput, Drains, Holds, WindowRPM, StableWindowed, CurrentOf, WellFormed;
    var t := Measured(c.p, s, o);
    var m := Latched(c.p, t);
    MeasuredStopped(c.p, s, o);
    LatchedSeries(c.p, t);
    RespondedFields(c.p, m);
    RampedFields(c, Responded(c.p, m), o.flows, Drains(c.p, s, o), Goodput(c.p, s, o));
  }

  lemma StepStop(c: Config, s: EngineState, o: Observation)
    requires c.p.Sane() && WellFormed(s)
    ensures var (r, d) := Step(c, s, o);
            d.stop <==> r.goodputStable && StableWindowed(r.rpRaw, c.p.mad, c.p.stdDevTolerance)
  {
    hide Measured, Latched, Responded, Ramped, Goodput, Drains, Holds, WindowRPM, StableWindowed, CurrentOf, WellFormed;
    StepFields(c, s, o);
    var m := Latched(c.p, Measured(c.p, s, o));
    RespondedFields(c.p, m);
    RampedFields(c, Responded(c.p, m), o.flows, Drains(c.p, s, o), Goodput(c.p, s, o));
  }

  lemma StepRPM(c: Config, s: EngineState, o: Observation)
    requires c.p.Sane() && WellFormed(s)
    ensures var m := Latched(c.p, Measured(c.p, s, o));
            Step(c, s, o).1.rpm == if Working(m) then WindowRPM(c.p, m) else 0.0
  {
    hide Measured, Latched, Responded, Ramped, Goodput, Drains, Holds, WindowRPM, StableWindowed, CurrentOf, WellFormed;
  }

  /** The figures a decision carries are those of the state it leaves. */
  lemma StepVerdict(c: Config, s: EngineState, o: Observation)
    requires c.p.Sane() && WellFormed(s)
    ensures var (r, d) := Step(c, s, o);
            && d.interval == r.intervals && d.throughput == CurrentOf(r.tpRaw, c.p.mad)
            && d.throughputStable == r.goodputStable
            && d.rpm == (if r.goodputStable || s.rampDone then WindowRPM(c.p, r) else 0.0)
            && d.responsivenessStable ==
                 ((r.goodputStable || s.rampDone) && StableWindowed(r.rpRaw, c.p.mad, c.p.stdDevTolerance))
  {
    hide Measured, Latched, Ramped, Goodput, Drains, Holds, ResponsivenessOf, StableWindowed, CurrentOf, WellFormed;
    var t := Measured(c.p, s, o);
    var m := Latched(c.p, t);
    MeasuredCounts(c.p, s, o);
    LatchedSeries(c.p, t);
    StepFields(c, s, o);
    RespondedFields(c.p, m);
    RampedFields(c, Responded(c.p, m), o.flows, Drains(c.p, s, o), Goodput(c.p, s, o));
  }

  lemma StepAdds(c: Config, flows: int)
    requires c.p.Sane() && flows < c.maxFlows
    ensures StepSize(c, flows) >= 1
  {
  }
}
