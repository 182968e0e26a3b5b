/**
 The simulated phase (internal/linksim/linksim.go): one loop that moves bytes through the
 path, spaces probes, ticks the engine and opens the flows it asks for.
 */
module LinkSim {
  import opened Series
  import opened Stats
  import opened Stability
  import opened Engine
  import opened History
  import opened Ramp
  import opened Fluid
  import opened SimTrace

  const MICROSECOND := 1000

  /** When a phase ends at the latest. */
  datatype Limit = Limit(duration: int, bytes: int)

  datatype Outcome = Outcome(
    summary: Summary, bytes: int, elapsed: int, flows: int, truncated: bool, reason: string,
    trueCapacity: real, trueLoadedRTT: int,
    movingAverages: seq<real>, decisions: seq<Decision>, capacities: seq<real>)

  /** Opens n flows, as far as the limit allows. */
  method AddFlows(link: Link, n: int, maxFlows: int, now: int, rates: seq<real>, starts: seq<int>, counter: real,
                  ghost steps: seq<Moved>)
    returns (rs: seq<real>, ss: seq<int>, bytes: real)
    requires |rates| == |starts| <= maxFlows && counter == Counter(link, steps, |rates|)
    ensures |rs| == |ss| == |rates| + (if n <= 0 then 0 else if |rates| + n <= maxFlows then n else maxFlows - |rates|)
    ensures bytes == Counter(link, steps, |rs|)
    ensures rates <= rs && starts <= ss
    ensures forall j :: |rates| <= j < |rs| ==> rs[j] == 0.0 && ss[j] == now
  {
    hide Credited;
    rs, ss, bytes := rates, starts, counter;
    var i := 0;
    while i < n && |rs| < maxFlows
      invariant |rs| == |ss| == |rates| + i <= maxFlows && 0 <= i && (n >= 0 ==> i <= n) && (n < 0 ==> i == 0)
      invariant bytes == Counter(link, steps, |rs|)
      invariant rates <= rs && starts <= ss
      invariant forall j :: |rates| <= j < |rs| ==> rs[j] == 0.0 && ss[j] == now
    {
      CreditedMore(link, |rs|);
      rs := rs + [0.0];
      ss := ss + [now];
      bytes := bytes + link.sendBuffer;
      i := i + 1;
    }
  }

  /** The demand of the flows, in bytes arriving in one step. */
  method Arrive(link: Link, env: Env, capacity: real, rates: seq<real>, starts: seq<int>, now: int)
    returns (rs: seq<real>, arrived: real)
    requires env.Valid() && |rates| == |starts|
    ensures |rs| == |rates|
    ensures Demanded(link, capacity, Ramps(link, env, starts, now), rs)
    ensures arrived == Sum(rs) / 8.0 * STEP_SECONDS
    ensures capacity >= 0.0 ==> arrived >= 0.0
  {
    hide Target, FairShare;
    var ramps := Ramps(link, env, starts, now);
    var offered;
    rs, offered := Offer(link, capacity, rates, ramps);
    if capacity >= 0.0 {
      assert rs[..|rs|] == rs;
      PrefixDemand(link, capacity, ramps, rs, |rs|);
    }
    arrived := offered / 8.0 * STEP_SECONDS;
  }

  /** One step of the path: the capacity in force, the flows' demand, and the bottleneck. */
  method Move(link: Link, env: Env, ghost c: Config, ghost t: Trace, ghost d: Demand, cap: real, now: int,
              ghost lastTick: int, ghost nextTick: int, bytes: real, q: real, k: real, flows: seq<real>,
              starts: seq<int>)
    returns (capacity: real, rates: seq<real>, counter: real, queue: real, tokens: real, ghost m: Moved)
    requires c.p.Sane() && env.Valid() && |flows| == |starts| && d.starts == starts
    requires Underway(link, c, t, now, lastTick, nextTick, bytes, q, k, |flows|)
    requires cap == LatestCapacity(link, |t.steps|) && Offered(link, env, c, t, d)
    ensures capacity == LatestCapacity(link, |t.steps| + 1) && |rates| == |flows|
    ensures Offered(link, env, c, t.(steps := t.steps + [m]), d.(rates := d.rates + [rates]))
    ensures Underway(link, c, t.(steps := t.steps + [m]), now + STEP, lastTick, nextTick, counter, queue, tokens,
                     |rates|)
    ensures now == |t.steps| * STEP && |t.at| == |t.h| && forall i :: 0 <= i < |t.at| ==> t.at[i] <= |t.steps|
    ensures queue == QueueAfter(t.steps + [m]) && counter == Counter(link, t.steps + [m], |rates|)
  {
    hide Follows, Counter, OpenFlows, Pass, QueueAfter, TokensAfter, Demanded, Offered, Driven, After, Decided;
    UnderwayMeans(link, c, t, now, lastTick, nextTick, bytes, q, k, |flows|);
    capacity := cap;
    if link.changeAt > 0 && now >= link.changeAt {
      capacity := link.changeTo;
    }
    var arrived, delivered;
    rates, arrived := Arrive(link, env, capacity, flows, starts, now);
    queue, tokens, delivered, m := Serve(link, capacity, q, k, arrived);
    counter := bytes + delivered;
    UnderwayStep(link, c, t, now, lastTick, nextTick, bytes, q, k, |rates|, m);
    UnderwayMeans(link, c, t.(steps := t.steps + [m]), now + STEP, lastTick, nextTick, counter, queue, tokens, |rates|);
    OfferedStep(link, env, c, t, d, m, rates);
  }

  /** Reports the interval since the last tick to the engine. */
  method Tick(link: Link, engine: Engine, ghost t: Trace, now: int, lastTick: int, ghost nextTick: int, counter: real,
              ghost queue: real, ghost tokens: real, flows: int, curF: seq<LatencySample>, curS: seq<LatencySample>)
    returns (d: Decision, ghost o: Observation)
    requires engine.Valid() && engine.State() == After(engine.c, t.h) && engine.c.maxFlows >= 1
    requires Underway(link, engine.c, t, now, lastTick, nextTick, counter, queue, tokens, flows)
    requires t.h != [] ==> !Decided(engine.c, t.h).stop
    requires nextTick <= now < nextTick + STEP
    modifies engine, engine.tp, engine.rp
    ensures engine.Valid() && engine.State() == After(engine.c, t.h + [o])
    ensures engine.rp == old(engine.rp) && (engine.tp == old(engine.tp) || fresh(engine.tp))
    ensures d == Decided(engine.c, t.h + [o]) && o.foreign == curF && o.self == curS
    ensures counter == Counter(link, t.steps, flows) && OpenFlows(engine.c, t.h + [o]) == flows + d.addFlows
    ensures Driven(engine.c, t.h)
    ensures 0 <= d.addFlows <= engine.c.maxFlows - flows && (d.stop ==> d.addFlows == 0)
    ensures JustTicked(link, engine.c, t.(h := t.h + [o], at := t.at + [|t.steps|]), now, queue, tokens,
                       flows + d.addFlows)
  {
    hide Underway, After, Decided, Truncate, Counter, WellFormed, JustTicked, OpenFlows, Driven, Follows;
    UnderwayMeans(link, engine.c, t, now, lastTick, nextTick, counter, queue, tokens, flows);
    var obs := Observation(now - lastTick, Truncate(counter), flows, curF, curS);
    UnderwayTick(link, engine.c, t, now, lastTick, nextTick, counter, queue, tokens, flows, obs);
    d := Feed(engine, t.h, obs);
    o := obs;
  }

  /** The probes so far, up to the given step, have left these samples, and the next one is due then. */
  ghost predicate Probing(link: Link, c: Config, t: Trace, shots: seq<Shot>, f: seq<LatencySample>,
                          s: seq<LatencySample>, due: int, upTo: int)
    requires c.p.Sane()
  {
    && Scheduled(link, c, t, shots, upTo) && Gathered(t.h, f, s, shots)
    && (shots != [] ==> shots[|shots| - 1].ticks <= |t.h|) && due == NextDue(c, t.h, shots)
  }

  /** Probes when the next probe is due: its latency is the loaded round trip and up to 2 ms of noise. */
  method Probe(link: Link, env: Env, engine: Engine, ghost t: Trace, capacity: real, queue: real, now: int, due: int,
               draw: nat, f: seq<LatencySample>, s: seq<LatencySample>, ghost shots: seq<Shot>)
    returns (next: int, draws: nat, curF: seq<LatencySample>, curS: seq<LatencySample>, ghost more: seq<Shot>)
    requires env.Valid() && engine.Valid() && engine.State() == After(engine.c, t.h)
    requires |t.steps| >= 1 && now == |t.steps| * STEP && forall i :: 0 <= i < |t.at| ==> t.at[i] < |t.steps|
    requires capacity == LatestCapacity(link, |t.steps|) && queue == QueueAfter(t.steps)
    requires |t.at| == |t.h| && Probing(link, engine.c, t, shots, f, s, due, |t.steps| - 1)
    ensures next == if now < due then due else
              now + ProbeGapOf(engine.c.p, CurrentOf(engine.tp.raw, engine.c.p.mad),
                               PROBE_FOREIGN_BYTES + PROBE_SELF_BYTES)
    ensures draws == if now < due then draw else draw + 1
    ensures Probing(link, engine.c, t, more, curF, curS, next, |t.steps|)
  {
    hide ProbeGapOf, CurrentOf, LoadedRTT, Gathered, Scheduled, After, QueueAfter, LatestCapacity, Engine.Valid;
    next, draws, curF, curS, more := due, draw, f, s, shots;
    if now >= next {
      var gap := engine.ProbeGap(PROBE_FOREIGN_BYTES, PROBE_SELF_BYTES);
      next := now + gap;
      var l := LoadedRTT(link, capacity, queue) + env.draw(draw, 2000) * MICROSECOND;
      draws := draw + 1;
      ghost var x := Shot(|t.steps|, |t.h|, l);
      assert t.steps[..|t.steps|] == t.steps && t.h[..|t.h|] == t.h;
      ScheduledShot(link, engine.c, t, shots, x);
      GatheredProbe(t.h, f, s, shots, x);
      more := shots + [x];
      curF := f + [ForeignProbe(l)];
      curS := s + [SelfProbe(l)];
    } else {
      ScheduledWait(link, engine.c, t, shots);
    }
  }

  /**
   What a finished run leaves: its record, and the outcome that sums it up. The engine has
   been ticked whenever a tick was due, up to the end.
   */
  ghost predicate Concluded(link: Link, c: Config, t: Trace, out: Outcome)
    requires c.p.Sane()
  {
    && Follows(link, c, t)
    && Reported(c, t.h, out.decisions, out.movingAverages)
    && InForce(link, t.at, out.capacities)
    && out.flows == OpenFlows(c, t.h)
    && out.bytes == Truncate(Counter(link, t.steps, out.flows))
    && out.elapsed == |t.steps| * STEP
    && out.elapsed - StepOf(t.at, |t.at|) * STEP < c.p.interval + Lateness(link) + STEP
    && out.trueCapacity == LatestCapacity(link, |t.steps|)
    && out.trueLoadedRTT == LoadedRTT(link, out.trueCapacity, QueueAfter(t.steps))
    && (out.truncated <==> !After(c, t.h).stopped)
    && (!out.truncated ==> out.elapsed == StepOf(t.at, |t.at|) * STEP)
  }

  /**
   What a limit on the bytes means for a run: the counter was below it after every step, except
   the last one of a run that ended for it.
   */
  ghost predicate Metered(link: Link, bytes: int, t: Trace, d: Demand, out: Outcome) {
    && |t.steps| == |d.rates| >= 1 && out.flows == FlowsIn(d.rates, |t.steps| - 1)
    && CountHeld(link, bytes, t.steps, d.rates, if out.reason == "bytes" then |t.steps| - 1 else |t.steps|)
  }

  lemma RunMetered(link: Link, bytes: int, t: Trace, d: Demand, out: Outcome)
    requires |t.steps| == |d.rates| >= 1 && out.flows == |d.rates[|d.rates| - 1]|
    requires CountHeld(link, bytes, t.steps, d.rates, if out.reason == "bytes" then |t.steps| - 1 else |t.steps|)
    ensures Metered(link, bytes, t, d, out)
  {
    hide CountHeld;
  }

  /**
   A run ends for its byte limit exactly if it counted that much, and then counts past it by
   less than one step carries and the flows opened just before that step are credited with.
   */
  lemma OvershootBounded(link: Link, c: Config, bytes: int, t: Trace, d: Demand, out: Outcome)
    requires c.p.Sane() && link.Valid() && bytes > 0 && Concluded(link, c, t, out) && Metered(link, bytes, t, d, out)
    requires out.reason == "bytes" ==> out.bytes >= bytes
    ensures out.reason == "bytes" <==> out.bytes >= bytes
    ensures var n := |t.steps| - 1;
            var cap := link.CapacityAt(n);
            out.bytes as real < bytes as real + PerStep(if link.Shaped() then 2.0 * cap else cap)
                                + Credited(link, out.flows - FlowsIn(d.rates, n - 1))
  {
    hide Counter, Truncate, PerStep, Credited, Driven, Sampled, After, Reported, InForce, OpenFlows, LoadedRTT;
    hide LatestCapacity, Lawful, FlowsIn;
    var n := |t.steps| - 1;
    if out.reason != "bytes" {
      assert t.steps[..n + 1] == t.steps;
      assert Truncate(Counter(link, t.steps[..n + 1], FlowsIn(d.rates, n))) < bytes;
    }
    StepOvershoot(link, bytes, t.steps, d.rates);
  }

  lemma ConcludedMeans(link: Link, c: Config, t: Trace, out: Outcome)
    requires c.p.Sane() && Concluded(link, c, t, out)
    ensures out.truncated <==> !After(c, t.h).stopped
  {
    hide After, Follows, Reported, InForce, OpenFlows, Counter, LatestCapacity, LoadedRTT;
  }

  /** The outcome of a run whose loop has ended. */
  method Conclude(link: Link, engine: Engine, ghost t: Trace, now: int, ghost lastTick: int, ghost nextTick: int,
                  counter: real, queue: real, ghost tokens: real, flows: int, curF: seq<LatencySample>,
                  curS: seq<LatencySample>, truncated: bool, reason: string, capacity: real,
                  averages: seq<real>, decisions: seq<Decision>, capacities: seq<real>)
    returns (out: Outcome)
    requires engine.Valid() && engine.State() == After(engine.c, t.h)
    requires Underway(link, engine.c, t, now, lastTick, nextTick, counter, queue, tokens, flows)
    requires Reported(engine.c, t.h, decisions, averages) && InForce(link, t.at, capacities)
    requires now < nextTick + STEP && capacity == LatestCapacity(link, |t.steps|)
    requires truncated <==> !(t.h != [] && Decided(engine.c, t.h).stop)
    requires !truncated ==> now == lastTick
    ensures Concluded(link, engine.c, t, out) && out.summary == SummaryOf(engine.c.p, After(engine.c, t.h), curF, curS)
    ensures out.elapsed == now && out.bytes == Truncate(counter) && out.truncated == truncated && out.reason == reason
    ensures out.flows == flows
  {
    hide Underway, Reported, InForce, After, Decided, SummaryOf, Truncate, LoadedRTT;
    hide LatestCapacity, Concluded, WellFormed;
    var summary := engine.Summarize(curF, curS);
    out := Outcome(summary, Truncate(counter), now, flows, truncated, reason, capacity,
                   LoadedRTT(link, capacity, queue), averages, decisions, capacities);
    RunConcluded(link, engine.c, t, lastTick, nextTick, counter, queue, tokens, out);
    ConcludedMeans(link, engine.c, t, out);
    if truncated && engine.stopped {
      out := out.(truncated := false, reason := "");
    }
  }

  /**
   The whole loop. Besides the outcome it leaves the record of the run: every tick and every
   step of the path (t), what the flows asked for in each step (demand), every probe (shots),
   and the samples of the interval in progress at the end.
   */
  method Run(link: Link, p: Params, maxFlows: int, limit: Limit, env: Env)
    returns (out: Outcome, ghost t: Trace, ghost demand: Demand, ghost shots: seq<Shot>,
             ghost leftF: seq<LatencySample>, ghost leftS: seq<LatencySample>)
    requires maxFlows >= 1 && env.Valid()
    ensures var c := Config(p.WithDefaults(), maxFlows);
            && Concluded(link, c, t, out)
            && Offered(link, env, c, t, demand)
            && Scheduled(link, c, t, shots, |t.steps|)
            && Gathered(t.h, leftF, leftS, shots)
            && out.summary == SummaryOf(c.p, After(c, t.h), leftF, leftS)
    ensures Metered(link, limit.bytes, t, demand, out)
    ensures out.elapsed > 0
    ensures if limit.duration > 0 then out.elapsed < limit.duration + STEP else out.elapsed == STEP
    ensures match out.reason
            case "bytes" => out.truncated && out.bytes >= limit.bytes > 0
            case "duration" => out.truncated && out.elapsed >= limit.duration
            case r => r == "" && !out.truncated
  {
    hide Follows, Driven, Underway, Reported, After, Decided, SummaryOf, Counter, OpenFlows;
    hide JustTicked, Offered, Scheduled;
    hide WellFormed, Truncate, LoadedRTT, Step, Initial, LatestCapacity, Lateness, NextTick, Gathered, InForce;
    hide Engine.Valid, Env.Valid, ProbeGapOf, CurrentOf, QueueAfter, Probing, Concluded, CountHeld, Metered;
    var eng := new Engine(p, maxFlows);
    var c := eng.c;
    var draws := 1;
    var now, lastTick, nextTick, nextProbe := 0, 0, NextTick(link, env, c.p, 0, 0), 0;
    var capacity, queue, tokens := link.capacity, 0.0, link.shaperBurst;
    var curF: seq<LatencySample>, curS: seq<LatencySample> := [], [];
    var averages: seq<real>, decisions: seq<Decision>, capacities: seq<real> := [], [], [];
    var truncated, reason := false, "";
    NothingCounted(link);
    var rates, starts, counter := AddFlows(link, c.InitialFlows(), maxFlows, now, [], [], 0.0, []);
    t, demand, shots := Trace([], [], []), Demand([], starts), [];
    StartRun(link, env, c, limit.bytes, nextTick, counter, starts);
    while true
      invariant fresh(eng) && fresh(eng.tp) && fresh(eng.rp) && eng.Valid() && eng.c == c
      invariant eng.State() == After(c, t.h)
      invariant |rates| == |starts| && demand.starts == starts
      invariant Underway(link, c, t, now, lastTick, nextTick, counter, queue, tokens, |rates|)
      invariant StillRunning(link, c, t, capacity)
      invariant now < nextTick && (now == 0 || now < limit.duration)
      invariant Reported(c, t.h, decisions, averages) && InForce(link, t.at, capacities)
      invariant Offered(link, env, c, t, demand)
      invariant Probing(link, c, t, shots, curF, curS, nextProbe, |t.steps|)
      invariant CountHeld(link, limit.bytes, t.steps, demand.rates, |t.steps|)
      decreases limit.duration - now
    {
      ghost var m;
      capacity, rates, counter, queue, tokens, m :=
        Move(link, env, c, t, demand, capacity, now, lastTick, nextTick, counter, queue, tokens, rates, starts);
      ProbingStep(link, c, t, shots, curF, curS, nextProbe, m);
      HeldStep(link, limit.bytes, t.steps, demand.rates, m, rates, counter);
      now := now + STEP;
      t, demand := t.(steps := t.steps + [m]), demand.(rates := demand.rates + [rates]);

      nextProbe, draws, curF, curS, shots :=
        Probe(link, env, eng, t, capacity, queue, now, nextProbe, draws, curF, curS, shots);
      if limit.bytes > 0 && Truncate(counter) >= limit.bytes {
        truncated, reason := true, "bytes";
        break;
      }
      if now >= limit.duration {
        truncated, reason := true, "duration";
        break;
      }
      if now >= nextTick {
        var d, o := Tick(link, eng, t, now, lastTick, nextTick, counter, queue, tokens, |rates|, curF, curS);
        TickRecorded(link, c, t, o, d, decisions, averages, capacities, shots, nextProbe);
        ghost var before := t;
        t := t.(h := t.h + [o], at := t.at + [|t.steps|]);
        curF, curS := [], [];
        averages := averages + [d.throughput];
        capacities := capacities + [capacity];
        decisions := decisions + [d];
        lastTick := now;
        nextTick := NextTick(link, env, c.p, now, draws);
        draws := draws + 1;
        if d.stop {
          GoesOn(link, env, c, before, demand, o, now, nextTick, counter, queue, tokens, starts);
          break;
        }
        rates, starts, counter := AddFlows(link, d.addFlows, maxFlows, now, rates, starts, counter, t.steps);
        GoesOn(link, env, c, before, demand, o, now, nextTick, counter, queue, tokens, starts);
        demand := demand.(starts := starts);
      }
    }
    out := Conclude(link, eng, t, now, lastTick, nextTick, counter, queue, tokens, |rates|, curF, curS,
                    truncated, reason, capacity, averages, decisions, capacities);
    RunMetered(link, limit.bytes, t, demand, out);
    ProbesSeen(link, c, t, shots, curF, curS, nextProbe, |t.steps|);
    leftF, leftS := curF, curS;
  }

  lemma StartRun(link: Link, env: Env, c: Config, bytes: int, nextTick: int, counter: real, starts: seq<int>)
    requires c.p.Sane() && c.maxFlows >= 1
    requires c.p.interval <= nextTick <= c.p.interval + Lateness(link) && counter == Counter(link, [], c.InitialFlows())
    requires |starts| == c.InitialFlows() && forall j :: 0 <= j < |starts| ==> starts[j] == 0
    ensures var t := Trace([], [], []);
            && Underway(link, c, t, 0, 0, nextTick, counter, 0.0, link.shaperBurst, c.InitialFlows())
            && StillRunning(link, c, t, link.capacity)
            && Offered(link, env, c, t, Demand([], starts))
            && Probing(link, c, t, [], [], [], 0, 0)
            && InForce(link, [], []) && Reported(c, [], [], []) && After(c, []) == Initial(c)
            && CountHeld(link, bytes, [], [], 0)
  {
    hide Underway, Offered, After;
    StartUnderway(link, c, nextTick, counter);
    OfferedStart(link, env, c, starts);
  }

  lemma ProbingStep(link: Link, c: Config, t: Trace, shots: seq<Shot>, f: seq<LatencySample>,
                    s: seq<LatencySample>, due: int, m: Moved)
    requires c.p.Sane() && Probing(link, c, t, shots, f, s, due, |t.steps|)
    ensures Probing(link, c, t.(steps := t.steps + [m]), shots, f, s, due, |t.steps|)
  {
    hide Scheduled, Gathered, NextDue;
    ScheduledStep(link, c, t, shots, m);
  }

  lemma ProbesSeen(link: Link, c: Config, t: Trace, shots: seq<Shot>, f: seq<LatencySample>,
                   s: seq<LatencySample>, due: int, upTo: int)
    requires c.p.Sane() && Probing(link, c, t, shots, f, s, due, upTo)
    ensures Scheduled(link, c, t, shots, upTo) && Gathered(t.h, f, s, shots)
  {
    hide Scheduled, Gathered, NextDue;
  }

  /** The loop's variables after a tick and the opening of the flows it called for. */
  lemma GoesOn(link: Link, env: Env, c: Config, t: Trace, d: Demand, o: Observation, now: int, nextTick: int,
               counter: real, queue: real, tokens: real, starts: seq<int>)
    requires c.p.Sane() && c.maxFlows >= 1 && Driven(c, t.h) && Offered(link, env, c, t, d)
    requires JustTicked(link, c, t.(h := t.h + [o], at := t.at + [|t.steps|]), now, queue, tokens, |starts|)
    requires now + c.p.interval <= nextTick <= now + c.p.interval + Lateness(link)
    requires counter == Counter(link, t.steps, |starts|)
    requires d.starts <= starts && forall j :: |d.starts| <= j < |starts| ==> starts[j] == now
    ensures var n := t.(h := t.h + [o], at := t.at + [|t.steps|]);
            && Underway(link, c, n, now, now, nextTick, counter, queue, tokens, |starts|)
            && Offered(link, env, c, n, d.(starts := starts))
  {
    hide Underway, Offered, Follows, Counter, OpenFlows, Lateness, Driven, QueueAfter, TokensAfter;
    TickGoesOn(link, c, t.(h := t.h + [o], at := t.at + [|t.steps|]), now, nextTick, counter, queue, tokens, |starts|);
    OfferedTick(link, env, c, t, d, o, starts);
  }

  /** The reported series, the samples and the probes' schedule after a tick. */
  lemma TickRecorded(link: Link, c: Config, t: Trace, o: Observation, d: Decision, decisions: seq<Decision>,
                     averages: seq<real>, capacities: seq<real>, shots: seq<Shot>, due: int)
    requires c.p.Sane() && Reported(c, t.h, decisions, averages) && d == Decided(c, t.h + [o])
    requires InForce(link, t.at, capacities) && Probing(link, c, t, shots, o.foreign, o.self, due, |t.steps|)
    ensures var n := t.(h := t.h + [o], at := t.at + [|t.steps|]);
            && Reported(c, n.h, decisions + [d], averages + [d.throughput])
            && InForce(link, n.at, capacities + [LatestCapacity(link, |t.steps|)])
            && Probing(link, c, n, shots, [], [], due, |t.steps|)
  {
    hide Reported, Scheduled, Gathered, Decided, NextDue, LatestCapacity;
    ReportedMore(c, t.h, o, decisions, averages, d);
    GatheredTick(t.h, o, shots);
    ScheduledTick(link, c, t, shots, o);
  }

  lemma RunConcluded(link: Link, c: Config, t: Trace, lastTick: int, nextTick: int, counter: real,
                    queue: real, tokens: real, out: Outcome)
    requires c.p.Sane() && Underway(link, c, t, out.elapsed, lastTick, nextTick, counter, queue, tokens, out.flows)
    requires Reported(c, t.h, out.decisions, out.movingAverages) && InForce(link, t.at, out.capacities)
    requires out.bytes == Truncate(counter) && out.elapsed < nextTick + STEP
    requires out.trueCapacity == LatestCapacity(link, |t.steps|)
    requires out.trueLoadedRTT == LoadedRTT(link, out.trueCapacity, queue)
    requires out.truncated <==> !(t.h != [] && Decided(c, t.h).stop)
    requires !out.truncated ==> out.elapsed == lastTick
    ensures Concluded(link, c, t, out)
  {
    hide Underway, Follows, Reported, InForce, Driven, OpenFlows, Counter, After, Decided, LatestCapacity, LoadedRTT;
    hide Truncate, QueueAfter;
    UnderwayMeans(link, c, t, out.elapsed, lastTick, nextTick, counter, queue, tokens, out.flows);
  }
}
