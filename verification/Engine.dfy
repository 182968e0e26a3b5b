/**
 The measurement engine (internal/engine/engine.go): one Observation per interval in,
 one Decision out. EngineState and Step give the meaning of one interval on values;
 the class updates its fields in place as the source does and is proved against them.
 */
module Engine {
  import opened Series
  import opened Stats
  import opened Stability

  datatype Observation = Observation(
    elapsed: int, bytes: int, flows: int, foreign: seq<LatencySample>, self: seq<LatencySample>)

  datatype Decision = Decision(
    addFlows: int, stop: bool, interval: int, throughput: real, rpm: real,
    throughputStable: bool, responsivenessStable: bool, hold: bool, drain: bool)

  /** The lowest goodput of a sustained window, with the window and the responsiveness over it. */
  datatype Bound = Bound(low: real, start: int, intervals: int, rpm: real)

  const NO_BOUND := Bound(0.0, 0, 0, 0.0)

  datatype Summary = Summary(
    intervals: int, throughput: real, peak: real,
    throughputStable: bool, responsivenessStable: bool,
    throughputConfidence: Confidence, responsivenessConfidence: Confidence,
    rates: Rates, foreign: seq<LatencySample>, self: seq<LatencySample>,
    bound: Bound, windowFrom: int, phaseForeign: nat, phaseSelf: nat)

  datatype Config = Config(p: Params, maxFlows: int) {
    function InitialFlows(): int {
      if p.initialFlows > maxFlows then maxFlows else p.initialFlows
    }
  }

  datatype EngineState = EngineState(
    intervals: nat, lastBytes: int, peak: real, goodputStable: bool, stopped: bool,
    foreign: seq<seq<LatencySample>>, self: seq<seq<LatencySample>>,
    tpRaw: seq<real>, rpRaw: seq<real>,
    addedInto: int, awaitGain: bool, beforeAdd: real, rampDone: bool, drainCredit: int,
    steadyFrom: int, holdG: seq<real>, holdIdx: seq<int>, lb: Bound)

  predicate WellFormed(s: EngineState) {
    && |s.foreign| == |s.self| == s.intervals
    && |s.holdG| == |s.holdIdx|
    && (forall k :: 0 <= k < |s.holdIdx| ==> 1 <= s.holdIdx[k] <= s.intervals)
    && (forall j, k :: 0 <= j < k < |s.holdIdx| ==> s.holdIdx[j] < s.holdIdx[k])
  }

  function Initial(c: Config): (s: EngineState)
    ensures WellFormed(s)
  {
    EngineState(0, 0, 0.0, false, false, [], [], [], [],
      c.InitialFlows(), false, 0.0, false, c.InitialFlows() * c.p.sendBufferBytes, 0, [], [], NO_BOUND)
  }

  // ---- Samples of a run of intervals ----

  function Flatten<T>(xss: seq<seq<T>>): seq<T> {
    if xss == [] then [] else Flatten(xss[..|xss| - 1]) + xss[|xss| - 1]
  }

  function CountAll<T>(xss: seq<seq<T>>): nat {
    if xss == [] then 0 else CountAll(xss[..|xss| - 1]) + |xss[|xss| - 1]|
  }

  function LastIntervals(xss: seq<seq<LatencySample>>, n: nat): seq<LatencySample> {
    Flatten(Trailing(xss, n))
  }

  // ---- One interval, on values ----

  function Elapsed(p: Params, o: Observation): (e: int)
    requires p.Sane()
    ensures e > 0
  {
    if o.elapsed <= 0 then p.interval else o.elapsed
  }

  /** Bits per second of bytes moved in elapsed nanoseconds. */
  function Rate(bytes: int, elapsed: int): real
    requires elapsed > 0
  {
    bytes as real * 8.0 / (elapsed as real / SECOND as real)
  }

  function Goodput(p: Params, s: EngineState, o: Observation): real
    requires p.Sane()
  {
    Rate(o.bytes - s.lastBytes, Elapsed(p, o))
  }

  /** A credit is more than the given fraction of the bytes counted. */
  predicate Material(credit: int, bytes: int, tolerance: real) {
    credit > 0 && credit as real > tolerance * bytes as real
  }

  /** The credit of newly opened flows is a material part of the interval. */
  predicate Drains(p: Params, s: EngineState, o: Observation) {
    Material(s.drainCredit, o.bytes - s.lastBytes, p.stdDevTolerance)
  }

  predicate Holds(p: Params, s: EngineState, o: Observation) {
    !Drains(p, s, o) && s.addedInto == 0
  }

  predicate FellBelow(g: real, average: real, tolerance: real) {
    g < (1.0 - tolerance) * average
  }

  /** g lies below the moving average of raw by more than the change tolerance. */
  predicate Dropped(p: Params, raw: seq<real>, g: real)
    requires p.Sane()
  {
    |raw| >= p.mad && FellBelow(g, CurrentOf(raw, p.mad), p.changeTolerance)
  }

  predicate Changes(p: Params, s: EngineState, o: Observation)
    requires p.Sane()
  {
    Holds(p, s, o) && Dropped(p, s.tpRaw, Goodput(p, s, o))
  }

  function Taken(s: EngineState, o: Observation): EngineState {
    s.(intervals := s.intervals + 1, lastBytes := o.bytes,
       foreign := s.foreign + [o.foreign], self := s.self + [o.self])
  }

  function Absorbed(s: EngineState): EngineState {
    s.(drainCredit := 0, addedInto := 0)
  }

  function Recorded(s: EngineState, o: Observation): EngineState {
    Absorbed(Taken(s, o))
  }

  function Restarted(s: EngineState): EngineState {
    s.(tpRaw := [], goodputStable := false, steadyFrom := 0, holdG := [], holdIdx := [], lb := NO_BOUND)
  }

  lemma TakenWellFormed(s: EngineState, o: Observation)
    requires WellFormed(s)
    ensures WellFormed(Taken(s, o))
  {
  }

  lemma AbsorbedWellFormed(s: EngineState)
    requires WellFormed(s)
    ensures WellFormed(Absorbed(s))
  {
  }

  lemma RecordedWellFormed(s: EngineState, o: Observation)
    requires WellFormed(s)
    ensures WellFormed(Recorded(s, o))
    ensures s.holdIdx == [] || s.holdIdx[|s.holdIdx| - 1] < Recorded(s, o).intervals
  {
  }

  lemma PushedWellFormed(s: EngineState, g: real)
    requires WellFormed(s) && s.intervals >= 1
    requires s.holdIdx == [] || s.holdIdx[|s.holdIdx| - 1] < s.intervals
    ensures WellFormed(Pushed(s, g))
  {
    var r := Pushed(s, g);
    forall j, k | 0 <= j < k < |r.holdIdx| ensures r.holdIdx[j] < r.holdIdx[k] {
      if k == |s.holdIdx| && j < |s.holdIdx| - 1 {
        assert s.holdIdx[j] < s.holdIdx[|s.holdIdx| - 1];
      }
    }
  }

  /** The last mad measured intervals are consecutive and their goodputs agree. */
  predicate Sustained(p: Params, g: seq<real>, idx: seq<int>)
    requires p.Sane() && |g| == |idx|
  {
    && |g| >= p.mad
    && idx[|idx| - 1] - idx[|idx| - p.mad] == p.mad - 1
    && var w := Trailing(g, p.mad);
    && Mean(w) > 0.0
    && DeviationBelow(Variance(w), p.stdDevTolerance, Mean(w))
  }

  function BoundOf(p: Params, g: seq<real>, idx: seq<int>,
                   foreign: seq<seq<LatencySample>>, self: seq<seq<LatencySample>>): Bound
    requires p.Sane() && |g| == |idx| >= p.mad
    requires 1 <= idx[|idx| - p.mad] <= idx[|idx| - 1] <= |foreign| == |self|
  {
    var first, last := idx[|idx| - p.mad], idx[|idx| - 1];
    Bound(Least(Trailing(g, p.mad)), first, p.mad,
      ResponsivenessOf(Flatten(foreign[first - 1..last]), Flatten(self[first - 1..last]), p.trimmedMeanPercent).total)
  }

  function Refreshed(p: Params, s: EngineState): (r: EngineState)
    requires p.Sane() && WellFormed(s)
    ensures WellFormed(r)
  {
    hide BoundOf, DeviationBelow;
    if Sustained(p, s.holdG, s.holdIdx) then s.(lb := BoundOf(p, s.holdG, s.holdIdx, s.foreign, s.self)) else s
  }

  /** g is the measured goodput of the interval just recorded. */
  function Pushed(s: EngineState, g: real): EngineState {
    s.(tpRaw := s.tpRaw + [g], holdG := s.holdG + [g], holdIdx := s.holdIdx + [s.intervals])
  }

  function Measured(p: Params, s: EngineState, o: Observation): (r: EngineState)
    requires p.Sane() && WellFormed(s)
    ensures WellFormed(r)
  {
    hide Drains, Changes, Goodput, WellFormed, Refreshed;
    var r := Recorded(s, o);
    RecordedWellFormed(s, o);
    if Drains(p, s, o) then r
    else
      var g := Goodput(p, s, o);
      PreparedWellFormed(r, g, Changes(p, s, o));
      var q := Prepared(r, g, Changes(p, s, o));
      PushedWellFormed(q, g);
      Refreshed(p, Pushed(q, g))
  }

  /** Peak and change detection, before the goodput g is recorded. */
  function Prepared(s: EngineState, g: real, changed: bool): EngineState {
    var r := if g > s.peak then s.(peak := g) else s;
    if changed then Restarted(r) else r
  }

  lemma PreparedWellFormed(s: EngineState, g: real, changed: bool)
    requires WellFormed(s)
    ensures WellFormed(Prepared(s, g, changed))
  {
  }

  lemma DrainMeasuresNothing(p: Params, s: EngineState, o: Observation)
    requires p.Sane() && WellFormed(s) && Drains(p, s, o)
    ensures Measured(p, s, o) == Recorded(s, o)
  {
  }

  function Latched(p: Params, s: EngineState): (r: EngineState)
    requires p.Sane()
    ensures WellFormed(s) ==> WellFormed(r)
  {
    hide StableAverages;
    if !s.goodputStable && StableAverages(s.tpRaw, p.mad, p.stdDevTolerance) then
      s.(goodputStable := true, steadyFrom := if s.steadyFrom == 0 then s.intervals else s.steadyFrom)
    else s
  }

  /** Responsiveness is tracked once the ramp is over or goodput is stable. */
  predicate Working(s: EngineState) {
    s.goodputStable || s.rampDone
  }

  /** Responsiveness over the last mad intervals. */
  function WindowRPM(p: Params, s: EngineState): real
    requires p.Sane()
  {
    ResponsivenessOf(LastIntervals(s.foreign, p.mad), LastIntervals(s.self, p.mad), p.trimmedMeanPercent).total
  }

  function Responded(p: Params, s: EngineState): (r: EngineState)
    requires p.Sane()
    ensures WellFormed(s) ==> WellFormed(r)
  {
    hide WindowRPM;
    if Working(s) && WindowRPM(p, s) > 0.0 then s.(rpRaw := s.rpRaw + [WindowRPM(p, s)]) else s
  }

  /** The last add bought less goodput than the ramp tolerance asks for. */
  predicate NoGain(tolerance: real, before: real, g: real) {
    tolerance >= 0.0 && before > 0.0 && (g - before) / before < tolerance
  }

  /** How many flows the next step of the ramp opens: as many again, within the limits. */
  function StepSize(c: Config, flows: int): int {
    var add := if flows < c.p.flowIncrement then c.p.flowIncrement else flows;
    if flows + add > c.maxFlows then c.maxFlows - flows else add
  }

  function Opened(p: Params, s: EngineState, add: int, g: real): EngineState {
    s.(awaitGain := true, addedInto := add, beforeAdd := g, drainCredit := add * p.sendBufferBytes)
  }

  lemma OpenedWellFormed(p: Params, s: EngineState, add: int, g: real)
    requires WellFormed(s)
    ensures WellFormed(Opened(p, s, add, g))
  {
  }

  function Ramped(c: Config, s: EngineState, flows: int, drain: bool, g: real): (r: (EngineState, int))
    ensures WellFormed(s) ==> WellFormed(r.0)
  {
    hide NoGain;
    var s := if flows >= c.maxFlows then s.(rampDone := true) else s;
    if drain || s.rampDone then (s, 0)
    else if s.awaitGain && NoGain(c.p.rampGainTolerance, s.beforeAdd, g) then
      (s.(awaitGain := false, rampDone := true), 0)
    else
      var add := StepSize(c, flows);
      (Opened(c.p, s, add, g), add)
  }

  lemma JudgedWellFormed(s: EngineState)
    requires WellFormed(s)
    ensures WellFormed(s.(awaitGain := false))
  {
  }

  lemma StoppedWellFormed(s: EngineState)
    requires WellFormed(s)
    ensures WellFormed(s.(stopped := true))
  {
  }

  function Step(c: Config, s: EngineState, o: Observation): (r: (EngineState, Decision))
    requires c.p.Sane() && WellFormed(s)
    ensures WellFormed(r.0)
  {
    hide Measured, Latched, Responded, Ramped, Goodput, Drains, Holds, WindowRPM, StableWindowed, CurrentOf, WellFormed;
    var p := c.p;
    var drain, g := Drains(p, s, o), Goodput(p, s, o);
    var t := Measured(p, s, o);
    var m := Latched(p, t);
    var r := Responded(p, m);
    var rpm := if Working(m) then WindowRPM(p, m) else 0.0;
    var stable := Working(m) && StableWindowed(r.rpRaw, p.mad, p.stdDevTolerance);
    var d := Decision(0, m.goodputStable && stable, t.intervals, CurrentOf(t.tpRaw, p.mad), rpm,
                      m.goodputStable, stable, Holds(p, s, o), drain);
    StoppedWellFormed(r);
    if d.stop then (r.(stopped := true), d)
    else
      var (n, add) := Ramped(c, r, o.flows, drain, g);
      (n, d.(addFlows := add))
  }

  // ---- The final figures ----

  function WindowFrom(p: Params, s: EngineState): int {
    var from := if s.intervals - p.mad + 1 > 1 then s.intervals - p.mad + 1 else 1;
    if s.goodputStable && s.steadyFrom > 0 && s.steadyFrom < from then s.steadyFrom else from
  }

  /**
   The samples the final figures are computed from, and the first interval they span:
   the working-conditions window or, if that holds no sample, the whole phase.
   */
  function WindowOf(p: Params, s: EngineState, curF: seq<LatencySample>, curS: seq<LatencySample>)
    : (seq<LatencySample>, seq<LatencySample>, int)
    requires p.Sane() && WellFormed(s)
  {
    var from := WindowFrom(p, s);
    var f, sl := LastIntervals(s.foreign, s.intervals - from + 1), LastIntervals(s.self, s.intervals - from + 1);
    if |f| + |sl| == 0 then
      (LastIntervals(s.foreign, s.intervals) + curF, LastIntervals(s.self, s.intervals) + curS, 1)
    else (f, sl, from)
  }

  function SummaryOf(p: Params, s: EngineState, curF: seq<LatencySample>, curS: seq<LatencySample>): Summary
    requires p.Sane() && WellFormed(s)
  {
    var (f, sl, from) := WindowOf(p, s, curF, curS);
    var stable := StableAverages(s.tpRaw, p.mad, p.stdDevTolerance);
    var responsive := StableWindowed(s.rpRaw, p.mad, p.stdDevTolerance);
    Summary(s.intervals, CurrentOf(s.tpRaw, p.mad), s.peak, stable, responsive,
      ConfidenceOf(stable, |s.tpRaw|, p.mad),
      if s.goodputStable then ConfidenceOf(responsive, |s.rpRaw|, p.mad) else Low,
      ResponsivenessOf(f, sl, p.trimmedMeanPercent), f, sl,
      s.lb, from, CountAll(s.foreign) + |curF|, CountAll(s.self) + |curS|)
  }

  /** Nanoseconds between probes of the given mean size that keep to a share of bps. */
  function Spacing(probeBytes: int, share: real, bps: real): int
    requires share > 0.0 && bps > 0.0
  {
    assert share * bps > 0.0;
    Truncate(probeBytes as real / 2.0 * 8.0 / (share * bps) * SECOND as real)
  }

  /** The spacing between probes: 1/MPS, stretched to keep probes under their share of goodput. */
  function ProbeGapOf(p: Params, bps: real, probeBytes: int): int
    requires p.Sane()
  {
    var gap := SECOND / p.maxProbesPerSecond;
    if bps > 0.0 then
      var g := Spacing(probeBytes, p.probeCapacityPercent, bps);
      if g > gap then g else gap
    else gap
  }

  lemma FlattenPrefix<T>(xss: seq<seq<T>>, i: nat, j: nat)
    requires i <= j < |xss|
    ensures Flatten(xss[i..j + 1]) == Flatten(xss[i..j]) + xss[j]
  {
    assert xss[i..j + 1][..j - i] == xss[i..j];
  }

  class Engine {
    const c: Config
    var tp: Tracker
    var rp: Tracker
    var intervals: nat
    var lastBytes: int
    var peak: real
    var goodputStable: bool
    var foreign: seq<seq<LatencySample>>
    var self: seq<seq<LatencySample>>
    var stopped: bool
    var addedInto: int
    var awaitGain: bool
    var beforeAdd: real
    var rampDone: bool
    var drainCredit: int
    var steadyFrom: int
    var holdG: seq<real>
    var holdIdx: seq<int>
    var lb: Bound

    /** The two trackers are distinct, consistent, and set up with the engine's parameters. */
    ghost predicate Trackers()
      reads this`tp, this`rp, tp, rp
    {
      && tp != rp
      && tp.Valid() && tp.mad == c.p.mad && tp.tolerance == c.p.stdDevTolerance && !tp.windowed
      && rp.Valid() && rp.mad == c.p.mad && rp.tolerance == c.p.stdDevTolerance && rp.windowed
    }

    ghost predicate Valid()
      reads this, tp, rp
      ensures Valid() ==> c.p.Sane() && WellFormed(State())
    {
      Trackers() && c.p.Sane() && WellFormed(State())
    }

    ghost function State(): EngineState
      reads this, tp, rp
    {
      EngineState(intervals, lastBytes, peak, goodputStable, stopped, foreign, self, tp.raw, rp.raw,
        addedInto, awaitGain, beforeAdd, rampDone, drainCredit, steadyFrom, holdG, holdIdx, lb)
    }

    /** An engine for one load phase; unset parameters take their defaults. */
    constructor (p: Params, maxFlows: int)
      ensures Valid() && fresh(tp) && fresh(rp)
      ensures c == Config(p.WithDefaults(), maxFlows) && State() == Initial(c)
    {
      var q := p.WithDefaults();
      var config := Config(q, maxFlows);
      var t := new Tracker(q.mad, q.stdDevTolerance, false);
      var r := new Tracker(q.mad, q.stdDevTolerance, true);
      c, tp, rp := config, t, r;
      addedInto := config.InitialFlows();
      drainCredit := config.InitialFlows() * q.sendBufferBytes;
      intervals, lastBytes, peak, goodputStable, stopped := 0, 0, 0.0, false, false;
      foreign, self := [], [];
      awaitGain, beforeAdd, rampDone, steadyFrom := false, 0.0, false, 0;
      holdG, holdIdx, lb := [], [], NO_BOUND;
    }

    /** The samples of the last n completed intervals. */
    method Window(n: nat) returns (f: seq<LatencySample>, s: seq<LatencySample>)
      requires Valid()
      ensures f == LastIntervals(foreign, n) && s == LastIntervals(self, n)
    {
      var start := if |foreign| - n < 0 then 0 else |foreign| - n;
      f, s := Gather(start, |foreign|);
      assert foreign[start..|foreign|] == Trailing(foreign, n) && self[start..|self|] == Trailing(self, n);
    }

    method Gather(start: nat, end: nat) returns (f: seq<LatencySample>, s: seq<LatencySample>)
      requires Valid() && start <= end <= |foreign|
      ensures f == Flatten(foreign[start..end]) && s == Flatten(self[start..end])
    {
      f, s := [], [];
      for i := start to end
        invariant f == Flatten(foreign[start..i]) && s == Flatten(self[start..i])
      {
        FlattenPrefix(foreign, start, i);
        FlattenPrefix(self, start, i);
        f := f + foreign[i];
        s := s + self[i];
      }
    }

    /** Replaces the bound when the last mad measured intervals make a sustained window. */
    method UpdateBound()
      requires Valid()
      modifies this`lb
      ensures Valid() && State() == old(Refreshed(c.p, State()))
    {
      hide DeviationBelow, Variance, ResponsivenessOf, Least, Mean, Averages;
      var n := c.p.mad;
      if |holdG| < n {
        return;
      }
      var g, idx := holdG[|holdG| - n..], holdIdx[|holdIdx| - n..];
      if idx[n - 1] - idx[0] != n - 1 {
        return;
      }
      assert g == Trailing(holdG, n);
      var mean, low := MeanAndLeast(g);
      var variance := VarianceOf(g);
      if mean <= 0.0 || !DeviationBelow(variance, c.p.stdDevTolerance, mean) {
        return;
      }
      var f, s := Gather(idx[0] - 1, idx[n - 1]);
      var rates := Responsiveness(f, s, c.p.trimmedMeanPercent);
      lb := Bound(low, idx[0], n, rates.total);
    }

    static method MeanAndLeast(g: seq<real>) returns (mean: real, low: real)
      requires g != []
      ensures mean == Mean(g) && low == Least(g)
    {
      mean, low := 0.0, g[0];
      for i := 0 to |g|
        invariant mean == Sum(g[..i])
        invariant low == if i == 0 then g[0] else Least(g[..i])
      {
        assert g[..i + 1][..i] == g[..i];
        mean := mean + g[i];
        low := if g[i] < low then g[i] else low;
      }
      assert g[..|g|] == g;
      mean := mean / |g| as real;
    }

    method Interval(o: Observation) returns (d: Decision)
      requires Valid()
      modifies this, tp, rp
      ensures Valid() && rp == old(rp) && (tp == old(tp) || fresh(tp))
      ensures (State(), d) == old(Step(c, State(), o))
    {
      hide Valid, Measured, Goodput, Drains, Holds, Latched, Ramped, WellFormed;
      hide StableAverages, StableWindowed, WindowRPM, CurrentOf;
      var drain, hold, goodput := Account(o);
      var throughput := Throughput();
      d := Decision(0, false, intervals, throughput, 0.0, false, false, hold, drain);
      Latch();
      d := d.(throughputStable := goodputStable);
      if goodputStable || rampDone {
        var rpm, responsive := Respond();
        d := d.(rpm := rpm, responsivenessStable := responsive);
        if goodputStable && responsive {
          Stop();
          d := d.(stop := true);
          return;
        }
      }
      var add := Ramp(o.flows, drain, goodput);
      d := d.(addFlows := add);
    }

    /** Takes the interval in and, unless it is a drain interval, measures it. */
    method Account(o: Observation) returns (drain: bool, hold: bool, goodput: real)
      requires Valid()
      modifies this, tp
      ensures Valid() && rp == old(rp) && (tp == old(tp) || fresh(tp))
      ensures State() == old(Measured(c.p, State(), o))
      ensures goodput == old(Goodput(c.p, State(), o))
      ensures drain == old(Drains(c.p, State(), o)) && hold == old(Holds(c.p, State(), o))
    {
      hide Valid, Measured, Goodput, Drains, Holds, Taken, Absorbed, WellFormed;
      ghost var before := State();
      drain, hold, goodput := Judge(o);
      Take(o);
      Absorb();
      if drain {
        DrainMeasuresNothing(c.p, before, o);
      } else {
        Measure(before, o, goodput, hold);
      }
    }

    method Throughput() returns (bps: real)
      requires Valid()
      ensures bps == CurrentOf(tp.raw, c.p.mad)
    {
      bps := tp.Current();
    }

    method Stop()
      requires Valid()
      modifies this`stopped
      ensures Valid() && State() == old(State()).(stopped := true)
    {
      hide WellFormed, Trackers;
      StoppedWellFormed(State());
      stopped := true;
    }

    /** Goodput of the interval, and whether it is a drain or a hold interval. */
    method Judge(o: Observation) returns (drain: bool, hold: bool, goodput: real)
      requires Valid()
      ensures goodput == Goodput(c.p, State(), o)
      ensures drain == Drains(c.p, State(), o) && hold == Holds(c.p, State(), o)
    {
      hide Rate, Material, WellFormed, Trackers;
      var elapsed := if o.elapsed <= 0 then c.p.interval else o.elapsed;
      var bytes := o.bytes - lastBytes;
      goodput := Rate(bytes, elapsed);
      drain := Material(drainCredit, bytes, c.p.stdDevTolerance);
      hold := !drain && addedInto == 0;
    }

    /** Takes the interval's counts and samples. */
    method Take(o: Observation)
      requires Valid()
      modifies this
      ensures Valid() && tp == old(tp) && rp == old(rp)
      ensures State() == Taken(old(State()), o)
    {
      hide WellFormed, Trackers;
      TakenWellFormed(State(), o);
      lastBytes := o.bytes;
      intervals := intervals + 1;
      foreign := foreign + [o.foreign];
      self := self + [o.self];
    }

    /** The send-buffer credit and the flows just added have had their effect. */
    method Absorb()
      requires Valid()
      modifies this`drainCredit, this`addedInto
      ensures Valid() && State() == Absorbed(old(State()))
    {
      hide WellFormed, Trackers;
      AbsorbedWellFormed(State());
      drainCredit, addedInto := 0, 0;
    }

    /** Latches goodput stability, and when it began. */
    method Latch()
      requires Valid()
      modifies this`goodputStable, this`steadyFrom
      ensures Valid() && State() == old(Latched(c.p, State()))
    {
      hide StableAverages, Averages;
      var stable := tp.Stable();
      if !goodputStable && stable {
        goodputStable := true;
        if steadyFrom == 0 {
          steadyFrom := intervals;
        }
      }
    }

    /** Responsiveness under working conditions, and whether its series is stable. */
    method Respond() returns (rpm: real, responsive: bool)
      requires Valid() && Working(State())
      modifies rp
      ensures Valid() && State() == old(Responded(c.p, State()))
      ensures rpm == old(WindowRPM(c.p, State()))
      ensures responsive == StableWindowed(rp.raw, c.p.mad, c.p.stdDevTolerance)
    {
      hide StableWindowed, LastIntervals, ResponsivenessOf, WellFormed, Averages;
      ghost var expected := Responded(c.p, State());
      var f, s := Window(c.p.mad);
      var rates := Responsiveness(f, s, c.p.trimmedMeanPercent);
      rpm := rates.total;
      if rpm > 0.0 {
        var _ := rp.Push(rpm);
      }
      responsive := rp.Stable();
    }

    /** Decides how many flows to open after an interval: none once the ramp is over or in a drain interval. */
    method Ramp(flows: int, drain: bool, goodput: real) returns (add: int)
      requires Valid()
      modifies this
      ensures Valid() && tp == old(tp) && rp == old(rp)
      ensures (State(), add) == old(Ramped(c, State(), flows, drain, goodput))
    {
      hide NoGain, WellFormed, Trackers;
      ghost var expected := Ramped(c, State(), flows, drain, goodput);
      if flows >= c.maxFlows {
        rampDone := true;
      }
      if drain || rampDone {
        return 0;
      }
      if awaitGain {
        JudgedWellFormed(State());
        awaitGain := false;
        if NoGain(c.p.rampGainTolerance, beforeAdd, goodput) {
          rampDone := true;
          return 0;
        }
      }
      add := flows;
      if add < c.p.flowIncrement {
        add := c.p.flowIncrement;
      }
      if flows + add > c.maxFlows {
        add := c.maxFlows - flows;
      }
      Open(add, goodput);
    }

    /** add flows are being opened; goodput is what was measured before. */
    method Open(add: int, goodput: real)
      requires Valid()
      modifies this`addedInto, this`awaitGain, this`beforeAdd, this`drainCredit
      ensures Valid() && State() == Opened(c.p, old(State()), add, goodput)
    {
      hide WellFormed, Trackers;
      OpenedWellFormed(c.p, State(), add, goodput);
      addedInto := add;
      awaitGain := true;
      beforeAdd := goodput;
      drainCredit := add * c.p.sendBufferBytes;
    }

    /** The part of Interval that a drain interval skips. */
    method Measure(ghost before: EngineState, o: Observation, goodput: real, hold: bool)
      requires Valid() && WellFormed(before) && State() == Recorded(before, o)
      requires goodput == Goodput(c.p, before, o) && !Drains(c.p, before, o) && hold == Holds(c.p, before, o)
      modifies this, tp
      ensures Valid() && rp == old(rp) && (tp == old(tp) || fresh(tp))
      ensures State() == Measured(c.p, before, o)
    {
      hide Valid, Goodput, Dropped, Refreshed, Drains, WellFormed;
      RecordedWellFormed(before, o);
      RaisePeak(goodput);
      var dropped := Drops(goodput);
      if hold && dropped {
        Restart();
      }
      Record(goodput);
      UpdateBound();
    }

    method RaisePeak(goodput: real)
      requires Valid()
      modifies this`peak
      ensures Valid() && State() == Prepared(old(State()), goodput, false)
    {
      hide WellFormed, Trackers;
      PreparedWellFormed(State(), goodput, false);
      peak := if goodput > peak then goodput else peak;
    }

    /** Whether goodput fell below the moving average by more than the change tolerance. */
    method Drops(goodput: real) returns (dropped: bool)
      requires Valid()
      ensures dropped == Dropped(c.p, tp.raw, goodput)
    {
      hide FellBelow, CurrentOf;
      var current := tp.Current();
      dropped := |tp.raw| >= c.p.mad && FellBelow(goodput, current, c.p.changeTolerance);
    }

    /** Forgets the goodput seen so far. */
    method Restart()
      requires Valid()
      modifies this
      ensures Valid() && rp == old(rp) && fresh(tp)
      ensures State() == Restarted(old(State()))
    {
      hide Valid, WellFormed;
      ForgetBound();
      ForgetSeries();
    }

    method ForgetBound()
      requires Valid()
      modifies this`holdG, this`holdIdx, this`lb
      ensures Valid() && State() == old(State()).(holdG := [], holdIdx := [], lb := NO_BOUND)
    {
      hide Trackers;
      holdG, holdIdx := [], [];
      lb := NO_BOUND;
    }

    method ForgetSeries()
      requires Valid()
      modifies this`tp, this`goodputStable, this`steadyFrom
      ensures Valid() && fresh(tp)
      ensures State() == old(State()).(tpRaw := [], goodputStable := false, steadyFrom := 0)
    {
      hide Averages;
      tp := new Tracker(c.p.mad, c.p.stdDevTolerance, false);
      goodputStable := false;
      steadyFrom := 0;
    }

    method Record(goodput: real)
      requires Valid() && intervals >= 1
      requires holdIdx == [] || holdIdx[|holdIdx| - 1] < intervals
      modifies this`holdG, this`holdIdx, tp
      ensures Valid() && State() == Pushed(old(State()), goodput)
    {
      hide WellFormed, Trackers;
      PushedWellFormed(State(), goodput);
      PushGoodput(goodput);
      holdG := holdG + [goodput];
      holdIdx := holdIdx + [intervals];
    }

    method PushGoodput(goodput: real)
      requires Valid()
      modifies tp
      ensures Trackers() && tp.raw == old(tp.raw) + [goodput] && rp.raw == old(rp.raw)
    {
      hide WellFormed, Averages;
      var _ := tp.Push(goodput);
    }

    /** Spacing between probes at the current goodput estimate. */
    method ProbeGap(foreignBytes: int, selfBytes: int) returns (gap: int)
      requires Valid()
      ensures gap == ProbeGapOf(c.p, CurrentOf(tp.raw, c.p.mad), foreignBytes + selfBytes)
    {
      hide Spacing;
      gap := SECOND / c.p.maxProbesPerSecond;
      var bps := tp.Current();
      if bps > 0.0 {
        var g := Spacing(foreignBytes + selfBytes, c.p.probeCapacityPercent, bps);
        if g > gap {
          gap := g;
        }
      }
    }

    /** The working-conditions window: its samples and its first interval. */
    method SteadyWindow(curF: seq<LatencySample>, curS: seq<LatencySample>)
      returns (f: seq<LatencySample>, s: seq<LatencySample>, from: int)
      requires Valid()
      ensures (f, s, from) == WindowOf(c.p, State(), curF, curS)
    {
      hide LastIntervals;
      from := if intervals - c.p.mad + 1 > 1 then intervals - c.p.mad + 1 else 1;
      if goodputStable && steadyFrom > 0 && steadyFrom < from {
        from := steadyFrom;
      }
      f, s := Window(intervals - from + 1);
      if |f| + |s| == 0 {
        f, s := Window(|foreign|);
        f := f + curF;
        s := s + curS;
        from := 1;
      }
    }

    method CountSamples() returns (f: nat, s: nat)
      requires Valid()
      ensures f == CountAll(foreign) && s == CountAll(self)
    {
      f, s := 0, 0;
      for i := 0 to |foreign|
        invariant f == CountAll(foreign[..i]) && s == CountAll(self[..i])
      {
        assert foreign[..i + 1][..i] == foreign[..i] && self[..i + 1][..i] == self[..i];
        f := f + |foreign[i]|;
        s := s + |self[i]|;
      }
      assert foreign[..|foreign|] == foreign && self[..|self|] == self;
    }

    /** The final figures; curF and curS are the samples of an interval still in progress. */
    method Summarize(curF: seq<LatencySample>, curS: seq<LatencySample>) returns (s: Summary)
      requires Valid()
      ensures s == SummaryOf(c.p, State(), curF, curS)
    {
      hide StableAverages, StableWindowed, CurrentOf, ResponsivenessOf, ConfidenceOf, WindowOf, WellFormed, Averages;
      var p := c.p;
      var throughput := tp.Current();
      var stable := tp.Stable();
      var confidence := tp.Confidence();
      var responsive := rp.Stable();
      var responsiveConfidence := rp.Confidence();
      if !goodputStable {
        responsiveConfidence := Low;
      }
      var f, sl, from := SteadyWindow(curF, curS);
      var rates := Responsiveness(f, sl, p.trimmedMeanPercent);
      var phaseForeign, phaseSelf := CountSamples();
      s := Summary(intervals, throughput, peak, stable, responsive, confidence, responsiveConfidence,
                   rates, f, sl, lb, from, phaseForeign + |curF|, phaseSelf + |curS|);
    }
  }
}
