/**
 The record of a simulated phase (internal/linksim/linksim.go): what one run of its loop did
 at each step of the path, each tick of the engine and each probe, and the rules it keeps.
 The random source and the slow-start curve are arbitrary functions.
 */
module SimTrace {
  import opened Series
  import opened Stats
  import opened Stability
  import opened Engine
  import opened History
  import opened Ramp
  import opened Samples
  import opened Windows
  import opened Fluid

  const PROBE_FOREIGN_BYTES := 5000
  const PROBE_SELF_BYTES := 1000

  /** curve(age, rtt) is a flow's slow-start rate; draw(i, n) is the i-th random draw below n. */
  datatype Env = Env(curve: (int, int) -> real, draw: (nat, int) -> int) {
    ghost predicate Valid() {
      && (forall age, rtt :: curve(age, rtt) >= 0.0)
      && forall i, n :: n > 0 ==> 0 <= draw(i, n) < n
    }

    /** Lateness of a tick. */
    function Jitter(i: nat, max: int): (r: int)
      requires Valid()
      ensures 0 <= r && (max > 0 ==> r < max)
    {
      if max <= 0 then 0 else draw(i, max)
    }
  }

  /** A whole run: its observations, the steps of the bottleneck, and the step each tick came after. */
  datatype Trace = Trace(h: seq<Observation>, steps: seq<Moved>, at: seq<int>)

  /** Bytes credited to the counter when the given number of flows started. */
  function Credited(link: Link, flows: int): real {
    flows as real * link.sendBuffer
  }

  /** The byte counter. */
  function Counter(link: Link, steps: seq<Moved>, flows: int): real {
    Delivered(steps) + Credited(link, flows)
  }

  /** The step after which tick i came; 0 before the first. */
  function StepOf(at: seq<int>, i: int): int
    requires i <= |at|
  {
    if i <= 0 then 0 else at[i - 1]
  }

  /** How late a tick may be called. */
  function Lateness(link: Link): int {
    if link.tickJitter > 0 then link.tickJitter - 1 else 0
  }

  /** When the tick after the given time is due. */
  function NextTick(link: Link, env: Env, p: Params, now: int, draw: nat): (r: int)
    requires env.Valid()
    ensures now + p.interval <= r <= now + p.interval + Lateness(link)
  {
    now + p.interval + env.Jitter(draw, link.tickJitter)
  }

  /** Observation i covers the time since the tick before it, came when it was due, and reads the byte counter. */
  predicate Sampled(link: Link, p: Params, t: Trace, i: nat)
    requires i < |t.h| == |t.at|
  {
    var from, to := StepOf(t.at, i), StepOf(t.at, i + 1);
    && 0 <= from <= to <= |t.steps|
    && t.h[i].elapsed == (to - from) * STEP
    && p.interval <= t.h[i].elapsed < p.interval + Lateness(link) + STEP
    && t.h[i].bytes == Truncate(Counter(link, t.steps[..to], t.h[i].flows))
  }

  predicate Follows(link: Link, c: Config, t: Trace)
    requires c.p.Sane()
  {
    && Lawful(link, t.steps)
    && Driven(c, t.h)
    && |t.at| == |t.h|
    && forall i :: 0 <= i < |t.h| ==> Sampled(link, c.p, t, i)
  }

  lemma CreditedMore(link: Link, flows: int)
    ensures Credited(link, flows + 1) == Credited(link, flows) + link.sendBuffer
    ensures Credited(link, 0) == 0.0
  {
  }

  lemma NothingCounted(link: Link)
    ensures Counter(link, [], 0) == 0.0
  {
  }

  /** The capacity in force in the last of the given number of steps. */
  function LatestCapacity(link: Link, steps: int): real {
    if steps <= 0 then link.capacity else link.CapacityAt(steps - 1)
  }

  /** The round trip through the queue as it stands. */
  function LoadedRTT(link: Link, capacity: real, queue: real): int {
    if capacity <= 0.0 then link.rtt
    else link.rtt + Truncate(queue * 8.0 / capacity * SECOND as real)
  }

  /**
   What a probe meets on the path: beyond the idle round trip it waits for the queue to drain at
   the capacity in force, to the nanosecond.
   */
  lemma QueueDrains(link: Link, capacity: real, queue: real)
    requires capacity > 0.0 && queue >= 0.0
    ensures var wait := LoadedRTT(link, capacity, queue) - link.rtt;
            wait >= 0 && capacity * Seconds(wait) <= queue * 8.0 < capacity * Seconds(wait + 1)
  {
    var x := queue * 8.0 / capacity;
    DivideAtLeast(queue * 8.0, 0.0, capacity);
    var wait := Truncate(x * SECOND as real);
    BitsDrained(capacity, x, queue * 8.0, Seconds(wait), Seconds(wait + 1));
  }

  lemma BitsDrained(capacity: real, x: real, bits: real, least: real, most: real)
    requires capacity > 0.0 && x == bits / capacity && least <= x < most
    ensures capacity * least <= bits < capacity * most
  {
    assert capacity * x == bits;
    ScaleAtMost(capacity, least, x);
    ScaleLess(capacity, x, most);
  }

  function Seconds(ns: int): real {
    ns as real / SECOND as real
  }

  /** A probe: the step after which it was sent, how many ticks came before it, and its latency. */
  datatype Shot = Shot(step: int, ticks: nat, latency: int)

  function ForeignProbe(l: int): LatencySample {
    LatencySample(3 * l, 0, l, l, 1, l, l, true)
  }

  function SelfProbe(l: int): LatencySample {
    LatencySample(l, 0, 0, 0, 0, 0, l, false)
  }

  function ForeignProbes(shots: seq<Shot>): seq<LatencySample> {
    seq(|shots|, i requires 0 <= i < |shots| => ForeignProbe(shots[i].latency))
  }

  function SelfProbes(shots: seq<Shot>): seq<LatencySample> {
    seq(|shots|, i requires 0 <= i < |shots| => SelfProbe(shots[i].latency))
  }

  /** The slow-start rates of flows started at the given times. */
  function Ramps(link: Link, env: Env, starts: seq<int>, now: int): (r: seq<real>)
    ensures |r| == |starts|
  {
    seq(|starts|, i requires 0 <= i < |starts| =>
      env.curve(now - starts[i], if link.rtt <= 0 then MILLISECOND else link.rtt))
  }

  /** Slow start depends on a flow's age alone, not on when it was opened. */
  lemma RampsShift(link: Link, env: Env, starts: seq<int>, now: int, shift: int)
    ensures var later := seq(|starts|, i requires 0 <= i < |starts| => starts[i] + shift);
            Ramps(link, env, later, now + shift) == Ramps(link, env, starts, now)
  {
    var later := seq(|starts|, i requires 0 <= i < |starts| => starts[i] + shift);
    forall i | 0 <= i < |starts|
      ensures Ramps(link, env, later, now + shift)[i] == Ramps(link, env, starts, now)[i]
    {
      assert now + shift - later[i] == now - starts[i];
    }
  }

  /** The loop's variables are those of the run so far. */
  predicate Underway(link: Link, c: Config, t: Trace, now: int, lastTick: int, nextTick: int,
                     counter: real, queue: real, tokens: real, flows: int)
    requires c.p.Sane()
  {
    && Follows(link, c, t)
    && now == |t.steps| * STEP
    && lastTick == StepOf(t.at, |t.at|) * STEP && 0 <= lastTick <= now
    && lastTick + c.p.interval <= nextTick <= lastTick + c.p.interval + Lateness(link)
    && queue == QueueAfter(t.steps) && tokens == TokensAfter(link, t.steps)
    && flows == OpenFlows(c, t.h) && 1 <= flows <= c.maxFlows
    && counter == Counter(link, t.steps, flows)
  }

  /** The loop goes on: the engine has not stopped, and the capacity is that of the latest step. */
  predicate StillRunning(link: Link, c: Config, t: Trace, capacity: real)
    requires c.p.Sane()
  {
    && (t.h != [] ==> !Decided(c, t.h).stop)
    && capacity == LatestCapacity(link, |t.steps|)
  }

  /** Each tick's capacity is that of the step before it. */
  predicate InForce(link: Link, at: seq<int>, capacities: seq<real>) {
    |capacities| == |at| && forall i :: 0 <= i < |at| ==> capacities[i] == LatestCapacity(link, at[i])
  }

  /** The reported series are the engine's decisions on each interval in turn. */
  predicate Reported(c: Config, h: seq<Observation>, decisions: seq<Decision>, averages: seq<real>)
    requires c.p.Sane()
  {
    && |decisions| == |averages| == |h|
    && forall i :: 0 <= i < |h| ==> decisions[i] == Decided(c, h[..i + 1]) && averages[i] == decisions[i].throughput
  }

  lemma ReportedMore(c: Config, h: seq<Observation>, o: Observation, decisions: seq<Decision>, averages: seq<real>,
                     d: Decision)
    requires c.p.Sane() && Reported(c, h, decisions, averages) && d == Decided(c, h + [o])
    ensures Reported(c, h + [o], decisions + [d], averages + [d.throughput])
  {
    hide Decided;
    var n := h + [o];
    assert n[..|n|] == n;
    forall i | 0 <= i < |h| ensures (decisions + [d])[i] == Decided(c, n[..i + 1]) {
      assert n[..i + 1] == h[..i + 1];
    }
  }

  // ---- What one turn of the loop adds to a run ----

  lemma FollowsStep(link: Link, c: Config, t: Trace, m: Moved)
    requires c.p.Sane() && Follows(link, c, t)
    requires m == Pass(link, link.CapacityAt(|t.steps|), QueueAfter(t.steps), TokensAfter(link, t.steps), m.arrived)
    requires link.Valid() ==> m.arrived >= 0.0
    ensures Follows(link, c, t.(steps := t.steps + [m]))
    ensures Delivered(t.steps + [m]) == Delivered(t.steps) + m.delivered
  {
    hide Driven, Pass, Counter, QueueAfter, TokensAfter;
    var n := t.(steps := t.steps + [m]);
    assert n.steps[..|t.steps|] == t.steps;
    forall i | 0 <= i < |n.h| ensures Sampled(link, c.p, n, i) {
      assert Sampled(link, c.p, t, i);
      var to := StepOf(t.at, i + 1);
      assert n.steps[..to] == t.steps[..to];
    }
  }

  lemma FollowsTick(link: Link, c: Config, t: Trace, o: Observation)
    requires c.p.Sane() && Follows(link, c, t)
    requires t.h != [] ==> !Decided(c, t.h).stop
    requires StepOf(t.at, |t.at|) <= |t.steps|
    requires o.flows == OpenFlows(c, t.h)
    requires o.elapsed == (|t.steps| - StepOf(t.at, |t.at|)) * STEP
    requires c.p.interval <= o.elapsed < c.p.interval + Lateness(link) + STEP
    requires o.bytes == Truncate(Counter(link, t.steps, o.flows))
    ensures Follows(link, c, t.(h := t.h + [o], at := t.at + [|t.steps|]))
    ensures OpenFlows(c, t.h + [o]) == o.flows + Decided(c, t.h + [o]).addFlows
  {
    hide Counter, Lawful, Decided, Truncate;
    var n := t.(h := t.h + [o], at := t.at + [|t.steps|]);
    assert Past(n.h) == t.h;
    forall i | 0 <= i < |n.h| ensures Sampled(link, c.p, n, i) {
      if i < |t.h| {
        assert Sampled(link, c.p, t, i);
      } else {
        assert t.steps[..|t.steps|] == t.steps;
        assert StepOf(n.at, i) == StepOf(t.at, |t.at|) && StepOf(n.at, i + 1) == |t.steps|;
        TickAfter(link, c, t);
      }
    }
  }

  lemma TickAfter(link: Link, c: Config, t: Trace)
    requires c.p.Sane() && Follows(link, c, t)
    ensures StepOf(t.at, |t.at|) >= 0
  {
    if t.at != [] {
      assert Sampled(link, c.p, t, |t.h| - 1);
    }
  }

  lemma UnderwayStep(link: Link, c: Config, t: Trace, now: int, lastTick: int, nextTick: int,
                     counter: real, queue: real, tokens: real, flows: int, m: Moved)
    requires c.p.Sane() && Underway(link, c, t, now, lastTick, nextTick, counter, queue, tokens, flows)
    requires m == Pass(link, link.CapacityAt(|t.steps|), queue, tokens, m.arrived)
    requires link.Valid() ==> m.arrived >= 0.0
    ensures Underway(link, c, t.(steps := t.steps + [m]), now + STEP, lastTick, nextTick,
                     counter + m.delivered, m.queue, m.tokens, flows)
  {
    hide Follows, Pass, Credited, OpenFlows;
    FollowsStep(link, c, t, m);
  }

  /** A tick has just been handled; whenever the next one is due, the loop goes on with the given flows. */
  predicate JustTicked(link: Link, c: Config, t: Trace, now: int, queue: real, tokens: real, flows: int)
    requires c.p.Sane()
  {
    && Follows(link, c, t)
    && now == |t.steps| * STEP == StepOf(t.at, |t.at|) * STEP
    && queue == QueueAfter(t.steps) && tokens == TokensAfter(link, t.steps)
    && flows == OpenFlows(c, t.h) && 1 <= flows <= c.maxFlows
  }

  lemma TickGoesOn(link: Link, c: Config, t: Trace, now: int, nextTick: int, counter: real,
                     queue: real, tokens: real, flows: int)
    requires c.p.Sane() && JustTicked(link, c, t, now, queue, tokens, flows)
    requires now + c.p.interval <= nextTick <= now + c.p.interval + Lateness(link)
    requires counter == Counter(link, t.steps, flows)
    ensures Underway(link, c, t, now, now, nextTick, counter, queue, tokens, flows)
    ensures Driven(c, t.h)
  {
    hide Follows, Counter, OpenFlows, QueueAfter, TokensAfter;
    FollowsDriven(link, c, t);
  }

  lemma UnderwayTick(link: Link, c: Config, t: Trace, now: int, lastTick: int, nextTick: int,
                     counter: real, queue: real, tokens: real, flows: int, o: Observation)
    requires c.p.Sane() && c.maxFlows >= 1
    requires Underway(link, c, t, now, lastTick, nextTick, counter, queue, tokens, flows)
    requires t.h != [] ==> !Decided(c, t.h).stop
    requires nextTick <= now < nextTick + STEP
    requires o.elapsed == now - lastTick && o.bytes == Truncate(counter) && o.flows == flows
    ensures var n, add := t.(h := t.h + [o], at := t.at + [|t.steps|]), Decided(c, t.h + [o]).addFlows;
            && counter == Counter(link, t.steps, flows)
            && 0 <= add <= c.maxFlows - flows && (Decided(c, t.h + [o]).stop ==> add == 0)
            && OpenFlows(c, t.h + [o]) == flows + add
            && JustTicked(link, c, n, now, queue, tokens, flows + add)
  {
    hide Follows, Counter, OpenFlows, Decided, Truncate, Driven;
    FollowsTick(link, c, t, o);
    FollowsDriven(link, c, t.(h := t.h + [o], at := t.at + [|t.steps|]));
    OpensAsTold(c, t.h + [o]);
  }

  lemma FollowsDriven(link: Link, c: Config, t: Trace)
    requires c.p.Sane() && Follows(link, c, t)
    ensures Driven(c, t.h)
  {
  }

  lemma StartUnderway(link: Link, c: Config, nextTick: int, counter: real)
    requires c.p.Sane() && c.maxFlows >= 1
    requires c.p.interval <= nextTick <= c.p.interval + Lateness(link) && counter == Counter(link, [], c.InitialFlows())
    ensures Underway(link, c, Trace([], [], []), 0, 0, nextTick, counter, 0.0, link.shaperBurst, c.InitialFlows())
    ensures StillRunning(link, c, Trace([], [], []), link.capacity)
    ensures After(c, []) == Initial(c) && Reported(c, [], [], [])
  {
  }

  /** What the loop's variables say of the run so far. */
  lemma UnderwayMeans(link: Link, c: Config, t: Trace, now: int, lastTick: int, nextTick: int, counter: real,
                      queue: real, tokens: real, flows: int)
    requires c.p.Sane() && Underway(link, c, t, now, lastTick, nextTick, counter, queue, tokens, flows)
    ensures Follows(link, c, t) && |t.at| == |t.h| && Driven(c, t.h)
    ensures forall i :: 0 <= i < |t.at| ==> t.at[i] <= |t.steps|
    ensures now == |t.steps| * STEP && flows == OpenFlows(c, t.h) && counter == Counter(link, t.steps, flows)
    ensures queue == QueueAfter(t.steps)
    ensures lastTick == StepOf(t.at, |t.at|) * STEP && nextTick <= lastTick + c.p.interval + Lateness(link)
    ensures After(c, t.h).stopped <==> t.h != [] && Decided(c, t.h).stop
  {
    hide Counter, Lawful, Driven, OpenFlows, After, Decided;
    StoppedWhenTold(c, t.h);
    forall i | 0 <= i < |t.at| ensures t.at[i] <= |t.steps| {
      assert Sampled(link, c.p, t, i);
      assert StepOf(t.at, i + 1) == t.at[i];
    }
  }

  // ---- Probes and their schedule ----

  /** The probe went out after its step, among the ticks as it says, and took the loaded round trip and up to 2 ms. */
  predicate Fired(link: Link, t: Trace, x: Shot) {
    && 1 <= x.step <= |t.steps| && x.ticks <= |t.at|
    && (x.ticks > 0 ==> t.at[x.ticks - 1] < x.step) && (x.ticks < |t.at| ==> x.step <= t.at[x.ticks])
    && var rtt := LoadedRTT(link, LatestCapacity(link, x.step), QueueAfter(t.steps[..x.step]));
       rtt <= x.latency < rtt + 2 * MILLISECOND
  }

  /** When the next probe is due: the engine's gap after this one. */
  function Due(c: Config, h: seq<Observation>, x: Shot): int
    requires c.p.Sane() && x.ticks <= |h|
  {
    x.step * STEP + ProbeGapOf(c.p, CurrentOf(After(c, h[..x.ticks]).tpRaw, c.p.mad),
                               PROBE_FOREIGN_BYTES + PROBE_SELF_BYTES)
  }

  /** step is the first after the given one that ends no earlier than due. */
  predicate FirstFrom(step: int, after: int, due: int) {
    step > after && step * STEP >= due && (step - 1 > after ==> (step - 1) * STEP < due)
  }

  /** When the next probe is due after the given ones; at once when there are none. */
  function NextDue(c: Config, h: seq<Observation>, shots: seq<Shot>): int
    requires c.p.Sane() && (shots != [] ==> shots[|shots| - 1].ticks <= |h|)
  {
    if shots == [] then 0 else Due(c, h, shots[|shots| - 1])
  }

  /**
   Up to the given step, probes went out exactly when they were due: the first after step 1,
   each next one after the first step that ends no earlier than the engine's gap after the
   probe before it, and none that was due is missing.
   */
  predicate Scheduled(link: Link, c: Config, t: Trace, shots: seq<Shot>, upTo: int)
    requires c.p.Sane()
  {
    && |t.at| == |t.h|
    && (forall i :: 0 <= i < |shots| ==> Fired(link, t, shots[i]))
    && (if shots == [] then upTo == 0 else
          && shots[0].step == 1
          && var last := shots[|shots| - 1];
             last.step <= upTo && (last.step < upTo ==> upTo * STEP < Due(c, t.h, last)))
    && (forall i :: 0 < i < |shots| ==> FirstFrom(shots[i].step, shots[i - 1].step, Due(c, t.h, shots[i - 1])))
  }

  /**
   The probes of a run keep to their rate and to their share of the goodput measured when each
   was sent, up to the nanosecond: the time to the next one carries at least one probe's bits.
   */
  lemma ScheduleKeepsToShare(link: Link, c: Config, t: Trace, shots: seq<Shot>, upTo: int, i: nat)
    requires c.p.Sane() && Scheduled(link, c, t, shots, upTo) && i + 1 < |shots|
    ensures var x, gap := shots[i], (shots[i + 1].step - shots[i].step) * STEP;
            var average := MovingAverageOf(c, After(c, t.h[..x.ticks]));
            && gap >= SECOND / c.p.maxProbesPerSecond
            && (average > 0.0 ==> ProbeBits(PROBE_FOREIGN_BYTES + PROBE_SELF_BYTES)
                                  < Bits(ProbeRate(c.p.probeCapacityPercent, average), (gap + 1) as real))
  {
    hide After, ProbeGapOf, CurrentOf, Bits, ProbeBits, ProbeRate, LoadedRTT;
    var x := shots[i];
    assert Fired(link, t, x);
    var average := MovingAverageOf(c, After(c, t.h[..x.ticks]));
    var gap := (shots[i + 1].step - x.step) * STEP;
    assert FirstFrom(shots[i + 1].step, shots[i].step, Due(c, t.h, x));
    var due := ProbeGapOf(c.p, average, PROBE_FOREIGN_BYTES + PROBE_SELF_BYTES);
    assert gap >= due;
    ProbesKeepToShare(c.p, average, PROBE_FOREIGN_BYTES + PROBE_SELF_BYTES);
    if average > 0.0 {
      RatePositive(c.p, average);
      BitsGrow(ProbeRate(c.p.probeCapacityPercent, average), (due + 1) as real, (gap + 1) as real);
    }
  }

  lemma RatePositive(p: Params, average: real)
    requires p.Sane() && average > 0.0
    ensures ProbeRate(p.probeCapacityPercent, average) > 0.0
  {
    ScaleLess(p.probeCapacityPercent, 0.0, average);
  }

  lemma DueStays(c: Config, h: seq<Observation>, o: Observation, x: Shot)
    requires c.p.Sane() && x.ticks <= |h|
    ensures Due(c, h + [o], x) == Due(c, h, x)
  {
    hide After, ProbeGapOf, CurrentOf;
    assert (h + [o])[..x.ticks] == h[..x.ticks];
  }

  lemma ScheduledStep(link: Link, c: Config, t: Trace, shots: seq<Shot>, m: Moved)
    requires c.p.Sane() && Scheduled(link, c, t, shots, |t.steps|)
    ensures Scheduled(link, c, t.(steps := t.steps + [m]), shots, |t.steps|)
  {
    hide Due, FirstFrom, LoadedRTT;
    var n := t.(steps := t.steps + [m]);
    forall i | 0 <= i < |shots| ensures Fired(link, n, shots[i]) {
      assert Fired(link, t, shots[i]);
      assert n.steps[..shots[i].step] == t.steps[..shots[i].step];
    }
  }

  lemma ScheduledTick(link: Link, c: Config, t: Trace, shots: seq<Shot>, o: Observation)
    requires c.p.Sane() && Scheduled(link, c, t, shots, |t.steps|)
    ensures Scheduled(link, c, t.(h := t.h + [o], at := t.at + [|t.steps|]), shots, |t.steps|)
    ensures shots != [] ==> shots[|shots| - 1].ticks <= |t.h|
    ensures NextDue(c, t.h + [o], shots) == NextDue(c, t.h, shots)
  {
    hide Due, FirstFrom, LoadedRTT;
    var n := t.(h := t.h + [o], at := t.at + [|t.steps|]);
    forall i | 0 <= i < |shots| ensures Fired(link, n, shots[i]) && Due(c, n.h, shots[i]) == Due(c, t.h, shots[i]) {
      assert Fired(link, t, shots[i]);
      DueStays(c, t.h, o, shots[i]);
    }
  }

  /** A step after which no probe was due. */
  lemma ScheduledWait(link: Link, c: Config, t: Trace, shots: seq<Shot>)
    requires c.p.Sane() && |t.steps| >= 1 && Scheduled(link, c, t, shots, |t.steps| - 1)
    requires (shots != [] ==> shots[|shots| - 1].ticks <= |t.h|) && |t.steps| * STEP < NextDue(c, t.h, shots)
    ensures Scheduled(link, c, t, shots, |t.steps|)
  {
    hide Due, FirstFrom, Fired;
  }

  /** A step after which a probe was due, and went out. */
  lemma ScheduledShot(link: Link, c: Config, t: Trace, shots: seq<Shot>, x: Shot)
    requires c.p.Sane() && |t.steps| >= 1 && Scheduled(link, c, t, shots, |t.steps| - 1)
    requires (shots != [] ==> shots[|shots| - 1].ticks <= |t.h|) && |t.steps| * STEP >= NextDue(c, t.h, shots)
    requires x.step == |t.steps| && Fired(link, t, x)
    ensures Scheduled(link, c, t, shots + [x], |t.steps|)
  {
    hide Due, Fired;
  }

  /** Probes gave one sample of either kind each, all of them still accounted for. */
  predicate Gathered(h: seq<Observation>, curF: seq<LatencySample>, curS: seq<LatencySample>, shots: seq<Shot>) {
    Collected(h, curF, curS, ForeignProbes(shots), SelfProbes(shots))
  }

  lemma GatheredProbe(h: seq<Observation>, curF: seq<LatencySample>, curS: seq<LatencySample>, shots: seq<Shot>,
                      x: Shot)
    requires Gathered(h, curF, curS, shots)
    ensures Gathered(h, curF + [ForeignProbe(x.latency)], curS + [SelfProbe(x.latency)], shots + [x])
  {
    hide Collected;
    var f, s := ForeignProbe(x.latency), SelfProbe(x.latency);
    CollectedMore(h, curF, curS, ForeignProbes(shots), SelfProbes(shots), [f], [s]);
    assert ForeignProbes(shots + [x]) == ForeignProbes(shots) + [f];
    assert SelfProbes(shots + [x]) == SelfProbes(shots) + [s];
  }

  lemma GatheredTick(h: seq<Observation>, o: Observation, shots: seq<Shot>)
    requires Gathered(h, o.foreign, o.self, shots)
    ensures Gathered(h + [o], [], [], shots)
  {
    hide Collected;
    CollectedTick(h, o, ForeignProbes(shots), SelfProbes(shots));
  }

  // ---- Flows and their demand ----

  /** The rates of the flows in each step, and when each flow was started. */
  datatype Demand = Demand(rates: seq<seq<real>>, starts: seq<int>)

  /** What arrived in step k is what the flows then open asked for, at the capacity in force. */
  predicate Asked(link: Link, env: Env, t: Trace, d: Demand, k: nat)
    requires k < |t.steps| == |d.rates|
  {
    && |d.rates[k]| <= |d.starts|
    && Demanded(link, link.CapacityAt(k), Ramps(link, env, d.starts[..|d.rates[k]|], k * STEP), d.rates[k])
    && t.steps[k].arrived == Sum(d.rates[k]) / 8.0 * STEP_SECONDS
  }

  /** Step k comes after tick i and not after the next one. */
  predicate During(t: Trace, i: nat, k: nat)
    requires i <= |t.at|
  {
    StepOf(t.at, i) <= k < |t.steps| && (i < |t.at| ==> k < t.at[i])
  }

  /** The flows open in each step are those opened by the ticks before it, each started at its tick. */
  predicate Flowing(c: Config, t: Trace, d: Demand)
    requires c.p.Sane() && |t.at| == |t.h| && |t.steps| == |d.rates|
  {
    && |d.starts| == OpenFlows(c, t.h)
    && (forall i, k :: 0 <= i <= |t.h| && 0 <= k < |d.rates| && During(t, i, k) ==>
          |d.rates[k]| == OpenFlows(c, t.h[..i]))
    && (forall i, j :: 0 <= i <= |t.h| && 0 <= j < |d.starts| && StartedAt(c, t.h, i, j) ==>
          d.starts[j] == StepOf(t.at, i) * STEP)
  }

  /** Flow j was opened by tick i, or is one of the initial ones when i is 0. */
  predicate StartedAt(c: Config, h: seq<Observation>, i: nat, j: nat)
    requires c.p.Sane() && i <= |h|
  {
    (if i == 0 then 0 else OpenFlows(c, h[..i - 1])) <= j < OpenFlows(c, h[..i])
  }

  predicate Offered(link: Link, env: Env, c: Config, t: Trace, d: Demand)
    requires c.p.Sane()
  {
    && |t.at| == |t.h| && |t.steps| == |d.rates|
    && (forall k :: 0 <= k < |t.steps| ==> Asked(link, env, t, d, k))
    && Flowing(c, t, d)
  }

  lemma OfferedStart(link: Link, env: Env, c: Config, starts: seq<int>)
    requires c.p.Sane() && |starts| == c.InitialFlows() && forall j :: 0 <= j < |starts| ==> starts[j] == 0
    ensures Offered(link, env, c, Trace([], [], []), Demand([], starts))
  {
  }

  lemma OfferedStep(link: Link, env: Env, c: Config, t: Trace, d: Demand, m: Moved, rates: seq<real>)
    requires c.p.Sane() && Offered(link, env, c, t, d) && |rates| == |d.starts|
    requires forall i :: 0 <= i < |t.at| ==> t.at[i] <= |t.steps|
    requires Demanded(link, link.CapacityAt(|t.steps|), Ramps(link, env, d.starts, |t.steps| * STEP), rates)
    requires m.arrived == Sum(rates) / 8.0 * STEP_SECONDS
    ensures Offered(link, env, c, t.(steps := t.steps + [m]), d.(rates := d.rates + [rates]))
  {
    hide OpenFlows, Demanded, Ramps, Sum;
    var n, e := t.(steps := t.steps + [m]), d.(rates := d.rates + [rates]);
    assert d.starts[..|rates|] == d.starts;
    forall k | 0 <= k < |n.steps| ensures Asked(link, env, n, e, k) {
      assert k < |t.steps| ==> Asked(link, env, t, d, k);
    }
    assert t.h[..|t.h|] == t.h;
    forall i, k | 0 <= i <= |n.h| && 0 <= k < |e.rates| && During(n, i, k)
      ensures |e.rates[k]| == OpenFlows(c, n.h[..i])
    {
      assert k < |t.steps| ==> During(t, i, k);
    }
  }

  lemma OfferedTick(link: Link, env: Env, c: Config, t: Trace, d: Demand, o: Observation, starts: seq<int>)
    requires c.p.Sane() && c.maxFlows >= 1 && Driven(c, t.h) && Offered(link, env, c, t, d)
    requires |starts| == OpenFlows(c, t.h + [o]) && d.starts <= starts
    requires forall j :: |d.starts| <= j < |starts| ==> starts[j] == |t.steps| * STEP
    ensures Offered(link, env, c, t.(h := t.h + [o], at := t.at + [|t.steps|]), d.(starts := starts))
  {
    hide OpenFlows, Demanded, Ramps, Sum, Driven;
    var n, e := t.(h := t.h + [o], at := t.at + [|t.steps|]), d.(starts := starts);
    forall k | 0 <= k < |n.steps| ensures Asked(link, env, n, e, k) {
      assert Asked(link, env, t, d, k);
      assert e.starts[..|e.rates[k]|] == d.starts[..|d.rates[k]|];
    }
    forall i, k | 0 <= i <= |n.h| && 0 <= k < |e.rates| && During(n, i, k)
      ensures |e.rates[k]| == OpenFlows(c, n.h[..i])
    {
      assert i <= |t.h| && During(t, i, k) && n.h[..i] == t.h[..i];
    }
    assert n.h[..|n.h|] == n.h && n.h[..|t.h|] == t.h && t.h[..|t.h|] == t.h;
    forall i, j | 0 <= i <= |n.h| && 0 <= j < |e.starts| && StartedAt(c, n.h, i, j)
      ensures e.starts[j] == StepOf(n.at, i) * STEP
    {
      if i <= |t.h| {
        assert n.h[..i] == t.h[..i] && (i > 0 ==> n.h[..i - 1] == t.h[..i - 1]);
        StartedBefore(c, t.h, i, j);
        assert StartedAt(c, t.h, i, j);
      }
    }
  }

  lemma StartedBefore(c: Config, h: seq<Observation>, i: nat, j: nat)
    requires c.p.Sane() && c.maxFlows >= 1 && Driven(c, h) && i <= |h| && StartedAt(c, h, i, j)
    ensures j < OpenFlows(c, h)
  {
    hide OpenFlows, Driven;
    FlowsGrow(c, h, i);
  }

  // ---- The byte limit ----

  /** How many flows were open in step k; none before the first. */
  function FlowsIn(rates: seq<seq<real>>, k: int): nat
    requires k < |rates|
  {
    if k < 0 then 0 else |rates[k]|
  }

  /** The byte counter after each of the first n steps, before the flows that a tick then opens, is below the limit. */
  predicate BelowLimit(link: Link, bytes: int, steps: seq<Moved>, rates: seq<seq<real>>, n: int) {
    && |rates| == |steps| && n <= |steps|
    && forall k :: 0 <= k < n ==> Truncate(Counter(link, steps[..k + 1], FlowsIn(rates, k))) < bytes
  }

  lemma BelowMore(link: Link, bytes: int, steps: seq<Moved>, rates: seq<seq<real>>, m: Moved, r: seq<real>)
    requires BelowLimit(link, bytes, steps, rates, |steps|)
    ensures BelowLimit(link, bytes, steps + [m], rates + [r], |steps|)
    ensures Truncate(Counter(link, steps + [m], |r|)) < bytes ==>
              BelowLimit(link, bytes, steps + [m], rates + [r], |steps| + 1)
  {
    hide Truncate, Counter;
    var more := steps + [m];
    assert more[..|more|] == more;
    forall k | 0 <= k < |steps| ensures Truncate(Counter(link, more[..k + 1], FlowsIn(rates + [r], k))) < bytes {
      assert more[..k + 1] == steps[..k + 1] && FlowsIn(rates + [r], k) == FlowsIn(rates, k);
    }
  }

  /** The counter has been below the limit, if there is one, after each of the first n steps. */
  predicate CountHeld(link: Link, bytes: int, steps: seq<Moved>, rates: seq<seq<real>>, n: int) {
    |steps| == |rates| && (bytes > 0 ==> BelowLimit(link, bytes, steps, rates, n))
  }

  lemma HeldStep(link: Link, bytes: int, steps: seq<Moved>, rates: seq<seq<real>>, m: Moved, r: seq<real>,
                 counter: real)
    requires CountHeld(link, bytes, steps, rates, |steps|) && counter == Counter(link, steps + [m], |r|)
    ensures CountHeld(link, bytes, steps + [m], rates + [r], |steps|)
    ensures bytes <= 0 || Truncate(counter) < bytes ==>
              CountHeld(link, bytes, steps + [m], rates + [r], |steps + [m]|)
    ensures |steps + [m]| == |rates + [r]|
  {
    hide Truncate, Counter, BelowLimit;
    if bytes > 0 {
      BelowMore(link, bytes, steps, rates, m, r);
    }
  }

  lemma CounterMore(link: Link, steps: seq<Moved>, before: nat, after: nat)
    requires steps != []
    ensures var n := |steps| - 1;
            Counter(link, steps, after)
            == Counter(link, steps[..n], before) + steps[n].delivered + Credited(link, after - before)
  {
    var buffer := link.sendBuffer;
    assert (after - before) as real * buffer == after as real * buffer - before as real * buffer;
  }

  /** What one step can deliver at the most. */
  lemma StepDelivery(link: Link, steps: seq<Moved>)
    requires Lawful(link, steps) && steps != []
    ensures var cap := link.CapacityAt(|steps| - 1);
            steps[|steps| - 1].delivered <= PerStep(if link.Shaped() then 2.0 * cap else cap)
  {
    hide PerStep, Kept;
  }

  lemma CounterNonNegative(link: Link, steps: seq<Moved>, flows: nat)
    requires link.Valid() && Lawful(link, steps)
    ensures Counter(link, steps, flows) >= 0.0
  {
    hide Lawful;
    TotalDelivery(link, steps);
    ScaleAtMost(link.sendBuffer, 0.0, flows as real);
  }

  /** One more step and newly opened flows take a counter past a limit by less than they add to it. */
  lemma StepOvershoot(link: Link, bytes: int, steps: seq<Moved>, rates: seq<seq<real>>)
    requires link.Valid() && bytes > 0 && Lawful(link, steps) && steps != []
    requires BelowLimit(link, bytes, steps, rates, |steps| - 1)
    ensures var n := |steps| - 1;
            var cap := link.CapacityAt(n);
            Truncate(Counter(link, steps, FlowsIn(rates, n))) as real
            < bytes as real + PerStep(if link.Shaped() then 2.0 * cap else cap)
              + Credited(link, FlowsIn(rates, n) - FlowsIn(rates, n - 1))
  {
    hide Counter, Lawful, PerStep, Credited;
    var n := |steps| - 1;
    LawfulPrefix(link, steps, n);
    CounterNonNegative(link, steps, FlowsIn(rates, n));
    CounterNonNegative(link, steps[..n], FlowsIn(rates, n - 1));
    CounterMore(link, steps, FlowsIn(rates, n - 1), FlowsIn(rates, n));
    StepDelivery(link, steps);
    if n == 0 {
      NothingCounted(link);
    } else {
      assert Truncate(Counter(link, steps[..n - 1 + 1], FlowsIn(rates, n - 1))) < bytes;
    }
  }
}
