/**
 One load phase (run.go): flows, probes and the phase loop act on shared state under locks,
 in an order nobody controls. A phase is modelled as the sequence of its atomic events; the
 class updates the shared state in place and the loop feeds and obeys the engine.
 */
module LoadPhase {
  import opened Wrappers
  import opened Stats
  import opened Stability
  import opened Engine
  import opened History
  import opened Ramp
  import opened Samples

  const UPLOAD_SEND_BUFFER := 0x40_0000

  /** Why a phase ended early; Finished is the engine's own stop. */
  datatype Reason = Finished | BytesCap | DurationCap | Cancelled | FlowError

  datatype Event =
    | Sample(self: bool, sample: LatencySample)
    | Traffic(bytes: nat, payload: bool)
    | FlowFailed(error: string)
    | Tick(now: int)
    | Done(cancelled: bool)

  /** What the phase's goroutines share. */
  datatype Shared = Shared(
    curF: seq<LatencySample>, curS: seq<LatencySample>, payload: nat, total: nat,
    reason: Option<Reason>, flowErrs: nat, flowErr: Option<string>)

  /** The shared state and the loop's own: over says that the loop has been left. */
  datatype Phase = Phase(h: seq<Observation>, shared: Shared, flows: int, lastTick: int, over: bool)

  /** limit caps the phase's bytes when positive. */
  datatype Setup = Setup(c: Config, limit: int, start: int)

  datatype Result = Result(
    summary: Summary, throughput: real, duration: int, bytes: nat, flows: int, flowErrors: nat,
    reason: Reason, truncated: bool)

  // ---- Events, on values ----

  /** Only the first call of stop has an effect. */
  function Stopped(s: Shared, why: Reason): Shared {
    if s.reason.None? then s.(reason := Some(why)) else s
  }

  /** The caller's context was cancelled, or the phase's deadline has passed. */
  function ContextReason(cancelled: bool): Reason {
    if cancelled then Cancelled else DurationCap
  }

  function WithSample(s: Shared, self: bool, sample: LatencySample): Shared {
    if self then s.(curS := s.curS + [sample]) else s.(curF := s.curF + [sample])
  }

  function WithTraffic(s: Shared, limit: int, bytes: nat, payload: bool): Shared {
    var n := s.(payload := if payload then s.payload + bytes else s.payload, total := s.total + bytes);
    if limit > 0 && n.total >= limit then Stopped(n, BytesCap) else n
  }

  function Failed(s: Shared, error: string): Shared {
    Stopped(s.(flowErrs := s.flowErrs + 1, flowErr := if s.flowErr.None? then Some(error) else s.flowErr), FlowError)
  }

  /** The observation that a tick hands to the engine. */
  function Observed(p: Params, v: Phase, now: int): Observation
    requires p.Sane()
  {
    Observation(if now - v.lastTick <= 0 then p.interval else now - v.lastTick, v.shared.payload, v.flows,
                v.shared.curF, v.shared.curS)
  }

  function AfterTick(c: Config, v: Phase, now: int): Phase
    requires c.p.Sane()
  {
    var o := Observed(c.p, v, now);
    var d := Decided(c, v.h + [o]);
    var taken := v.shared.(curF := [], curS := []);
    if d.stop then Phase(v.h + [o], Stopped(taken, Finished), v.flows, now, true)
    else Phase(v.h + [o], taken, v.flows + (if d.addFlows > 0 then d.addFlows else 0), now, false)
  }

  function Handled(u: Setup, v: Phase, e: Event): Phase
    requires u.c.p.Sane()
  {
    match e
    case Sample(self, sample) => v.(shared := WithSample(v.shared, self, sample))
    case Traffic(bytes, payload) => v.(shared := WithTraffic(v.shared, u.limit, bytes, payload))
    case FlowFailed(error) => v.(shared := Failed(v.shared, error))
    case Tick(now) => if v.over then v else AfterTick(u.c, v, now)
    case Done(cancelled) =>
      if v.over then v else v.(shared := Stopped(v.shared, ContextReason(cancelled)), over := true)
  }

  const NOTHING := Shared([], [], 0, 0, None, 0, None)

  function Begun(u: Setup): Phase {
    Phase([], NOTHING, u.c.InitialFlows(), u.start, false)
  }

  function Played(u: Setup, events: seq<Event>): Phase
    requires u.c.p.Sane()
  {
    if events == [] then Begun(u) else Handled(u, Played(u, events[..|events| - 1]), events[|events| - 1])
  }

  /** Mean payload rate; zero for an empty phase. */
  function MeanRate(payload: nat, duration: int): real {
    if duration > 0 then Rate(payload, duration) else 0.0
  }

  /** The figures of a phase whose loop has been left; there are none before. */
  function ResultOf(u: Setup, v: Phase, end: int): Option<Result>
    requires u.c.p.Sane()
  {
    if !v.over || v.shared.reason.None? then None
    else
      var summary := SummaryOf(u.c.p, After(u.c, v.h), v.shared.curF, v.shared.curS);
      var reason := v.shared.reason.value;
      Some(Result(summary, if |v.h| == 0 then MeanRate(v.shared.payload, end - u.start) else summary.throughput,
                  end - u.start, v.shared.total, v.flows, v.shared.flowErrs, reason, !reason.Finished?))
  }

  // ---- The shared state, in place ----

  class PhaseState {
    const limit: int
    var curF: seq<LatencySample>
    var curS: seq<LatencySample>
    var payload: nat
    var total: nat
    var stopped: bool
    var reason: Reason
    var flowErrs: nat
    var flowErr: Option<string>

    ghost function State(): Shared
      reads this
    {
      Shared(curF, curS, payload, total, if stopped then Some(reason) else None, flowErrs, flowErr)
    }

    /** No reason is given unless the phase was stopped. */
    ghost predicate Valid()
      reads this
    {
      stopped || reason == Finished
    }

    constructor (limit: int)
      ensures Valid() && State() == NOTHING && this.limit == limit
    {
      this.limit := limit;
      curF, curS, payload, total := [], [], 0, 0;
      stopped, reason, flowErrs, flowErr := false, Finished, 0, None;
    }

    method Stop(why: Reason)
      requires Valid()
      modifies this`stopped, this`reason
      ensures Valid() && State() == Stopped(old(State()), why)
    {
      if !stopped {
        stopped := true;
        reason := why;
      }
    }

    method Fail(error: string)
      requires Valid()
      modifies this
      ensures Valid() && State() == Failed(old(State()), error)
    {
      flowErrs := flowErrs + 1;
      if flowErr.None? {
        flowErr := Some(error);
      }
      Stop(FlowError);
    }

    method Count(bytes: nat, isPayload: bool)
      requires Valid()
      modifies this
      ensures Valid() && State() == WithTraffic(old(State()), limit, bytes, isPayload)
    {
      if isPayload {
        payload := payload + bytes;
      }
      total := total + bytes;
      if limit > 0 && total >= limit {
        Stop(BytesCap);
      }
    }

    method AddSample(self: bool, sample: LatencySample)
      requires Valid()
      modifies this`curF, this`curS
      ensures Valid() && State() == WithSample(old(State()), self, sample)
    {
      if self {
        curS := curS + [sample];
      } else {
        curF := curF + [sample];
      }
    }

    /** Hands over the samples gathered since the last tick, and leaves none. */
    method Take() returns (f: seq<LatencySample>, s: seq<LatencySample>)
      modifies this`curF, this`curS
      ensures f == old(curF) && s == old(curS)
      ensures State() == old(State()).(curF := [], curS := [])
    {
      f, s := curF, curS;
      curF, curS := [], [];
    }
  }

  // ---- The phase loop ----

  /** Takes the interval's samples, feeds the engine, and carries out its decision. */
  method HandleTick(u: Setup, engine: Engine, state: PhaseState, ghost v: Phase, flows: int, lastTick: int, now: int)
    returns (count: int, stop: bool, ghost o: Observation)
    requires engine.Valid() && engine.c == u.c && engine.State() == After(u.c, v.h)
    requires state.Valid() && v == Phase(v.h, state.State(), flows, lastTick, false)
    modifies engine, engine.tp, engine.rp, state
    ensures state.Valid() && engine.Valid()
    ensures engine.rp == old(engine.rp) && (engine.tp == old(engine.tp) || fresh(engine.tp))
    ensures AfterTick(u.c, v, now) == Phase(v.h + [o], state.State(), count, now, stop)
    ensures engine.State() == After(u.c, v.h + [o])
  {
    hide After, Decided, WellFormed;
    count := flows;
    var elapsed := now - lastTick;
    if elapsed <= 0 {
      elapsed := u.c.p.interval;
    }
    var f, s := state.Take();
    var obs := Observation(elapsed, state.payload, flows, f, s);
    o := obs;
    var d := Feed(engine, v.h, obs);
    stop := d.stop;
    if stop {
      state.Stop(Finished);
    } else {
      var i := 0;
      while i < d.addFlows
        invariant 0 <= i && count == flows + i && (d.addFlows >= 0 ==> i <= d.addFlows) && (d.addFlows < 0 ==> i == 0)
      {
        count := count + 1;
        i := i + 1;
      }
    }
  }

  /** One event of a phase. */
  method Handle(u: Setup, engine: Engine, state: PhaseState, ghost v: Phase, e: Event, flows: int, lastTick: int,
                over: bool)
    returns (count: int, last: int, left: bool, ghost h: seq<Observation>)
    requires engine.Valid() && engine.c == u.c && engine.State() == After(u.c, v.h)
    requires state.Valid() && state.limit == u.limit && v == Phase(v.h, state.State(), flows, lastTick, over)
    modifies engine, engine.tp, engine.rp, state
    ensures engine.Valid() && engine.rp == old(engine.rp) && (engine.tp == old(engine.tp) || fresh(engine.tp))
    ensures state.Valid() && Handled(u, v, e) == Phase(h, state.State(), count, last, left)
    ensures engine.State() == After(u.c, h)
  {
    hide After, Decided, WellFormed, AfterTick, Stopped, Failed, WithTraffic, WithSample, ContextReason, Engine.Valid;
    count, last, left, h := flows, lastTick, over, v.h;
    match e
    case Sample(self, sample) => state.AddSample(self, sample);
    case Traffic(bytes, payload) => state.Count(bytes, payload);
    case FlowFailed(error) => state.Fail(error);
    case Tick(now) =>
      if !over {
        ghost var o;
        count, left, o := HandleTick(u, engine, state, v, flows, lastTick, now);
        last := now;
        h := v.h + [o];
      }
    case Done(cancelled) =>
      if !over {
        left := true;
        state.Stop(ContextReason(cancelled));
      }
  }

  /** The phase's figures, once every flow and probe has returned. */
  method Finish(u: Setup, engine: Engine, state: PhaseState, ghost v: Phase, flows: int, end: int) returns (r: Result)
    requires engine.Valid() && engine.c == u.c && engine.State() == After(u.c, v.h)
    requires state.Valid() && v.shared == state.State() && v.flows == flows && v.over && v.shared.reason.Some?
    modifies state
    ensures Some(r) == ResultOf(u, v, end)
  {
    hide After, WellFormed, WindowOf, StableAverages, StableWindowed, CurrentOf, ResponsivenessOf;
    hide CountAll, Rate, Engine.Valid;
    CountedOnline(u.c, v.h);
    var curF, curS := state.Take();
    var summary := engine.Summarize(curF, curS);
    var duration := end - u.start;
    var throughput := summary.throughput;
    if summary.intervals == 0 {
      throughput := MeanRate(state.payload, duration);
    }
    r := Result(summary, throughput, duration, state.total, flows, state.flowErrs, state.reason,
                !state.reason.Finished?);
  }

  /** The parameters of a direction: an upload that sets no send-buffer credit gets the default one. */
  function ParamsFor(p: Params, upload: bool): Params {
    if upload && p.sendBufferBytes == 0 then p.(sendBufferBytes := UPLOAD_SEND_BUFFER) else p
  }

  /**
   Runs a phase through its events. Probes, flows and the byte counter act at any time, also
   after the loop has been left; ticks act only while the loop runs. There is a result once
   the loop has been left.
   */
  method Load(sp: Params, upload: bool, maxFlows: int, limit: int, start: int, end: int, events: seq<Event>)
    returns (r: Option<Result>)
    requires maxFlows >= 1
    ensures var u := Setup(Config(ParamsFor(sp, upload).WithDefaults(), maxFlows), limit, start);
            r == ResultOf(u, Played(u, events), end)
  {
    hide After, WellFormed, Handled, ResultOf, Engine.Valid;
    var p := sp;
    if upload && p.sendBufferBytes == 0 {
      p := p.(sendBufferBytes := UPLOAD_SEND_BUFFER);
    }
    var engine := new Engine(p, maxFlows);
    var u := Setup(engine.c, limit, start);
    var state := new PhaseState(limit);
    var flows, lastTick, over := 0, start, false;
    while flows < u.c.InitialFlows()
      invariant flows <= u.c.InitialFlows()
    {
      flows := flows + 1;
    }
    ghost var h: seq<Observation> := [];
    FreshAfter(u.c);
    for k := 0 to |events|
      invariant fresh(engine) && fresh(engine.tp) && fresh(engine.rp) && fresh(state)
      invariant state.Valid() && state.limit == limit
      invariant engine.Valid() && engine.c == u.c && engine.State() == After(u.c, h)
      invariant Played(u, events[..k]) == Phase(h, state.State(), flows, lastTick, over)
    {
      assert events[..k + 1][..k] == events[..k];
      flows, lastTick, over, h :=
        Handle(u, engine, state, Played(u, events[..k]), events[k], flows, lastTick, over);
    }
    assert events[..|events|] == events;
    if over {
      LeftHasReason(u, events);
      var result := Finish(u, engine, state, Played(u, events), flows, end);
      r := Some(result);
    } else {
      NoResultYet(u, Played(u, events), end);
      r := None;
    }
  }

  lemma NoResultYet(u: Setup, v: Phase, end: int)
    requires u.c.p.Sane() && !v.over
    ensures ResultOf(u, v, end).None?
  {
  }

  /** The loop is only left by a stop with a reason. */
  lemma {:induction false} LeftHasReason(u: Setup, events: seq<Event>)
    requires u.c.p.Sane()
    ensures Played(u, events).over ==> Played(u, events).shared.reason.Some?
  {
    if events == [] {
    } else {
      hide Handled;
      LeftHasReason(u, events[..|events| - 1]);
      LeavingHasReason(u, Played(u, events[..|events| - 1]), events[|events| - 1]);
    }
  }

  lemma LeavingHasReason(u: Setup, v: Phase, e: Event)
    requires u.c.p.Sane() && (v.over ==> v.shared.reason.Some?)
    ensures Handled(u, v, e).over ==> Handled(u, v, e).shared.reason.Some?
  {
    hide Decided;
  }

  lemma FreshAfter(c: Config)
    requires c.p.Sane()
    ensures After(c, []) == Initial(c)
  {
  }

  // ---- Conservation of samples ----

  /** The samples of one kind among the events, in order. */
  function SamplesIn(events: seq<Event>, self: bool): seq<LatencySample> {
    if events == [] then []
    else
      var e := events[|events| - 1];
      SamplesIn(events[..|events| - 1], self) + if e.Sample? && e.self == self then [e.sample] else []
  }

  /**
   Every sample ever added is, in order, in exactly one observation or still in progress when
   the summary is made.
   */
  lemma {:induction false} SamplesConserved(u: Setup, events: seq<Event>)
    requires u.c.p.Sane()
    ensures var v := Played(u, events);
            Collected(v.h, v.shared.curF, v.shared.curS, SamplesIn(events, false), SamplesIn(events, true))
  {
    if events == [] {
    } else {
      hide Collected, Handled;
      SamplesConserved(u, events[..|events| - 1]);
      SamplesStep(u, Played(u, events[..|events| - 1]), events[|events| - 1],
                  SamplesIn(events[..|events| - 1], false), SamplesIn(events[..|events| - 1], true));
    }
  }

  lemma SamplesStep(u: Setup, v: Phase, e: Event, allF: seq<LatencySample>, allS: seq<LatencySample>)
    requires u.c.p.Sane() && Collected(v.h, v.shared.curF, v.shared.curS, allF, allS)
    ensures var n := Handled(u, v, e);
            Collected(n.h, n.shared.curF, n.shared.curS,
                      allF + (if e.Sample? && !e.self then [e.sample] else []),
                      allS + (if e.Sample? && e.self then [e.sample] else []))
  {
    hide Collected, Decided;
    assert allF + [] == allF && allS + [] == allS;
    match e
    case Sample(self, sample) =>
      assert v.shared.curF + [] == v.shared.curF && v.shared.curS + [] == v.shared.curS;
      CollectedMore(v.h, v.shared.curF, v.shared.curS, allF, allS,
                    if self then [] else [sample], if self then [sample] else []);
    case Tick(now) =>
      if !v.over {
        CollectedTick(v.h, Observed(u.c.p, v, now), allF, allS);
      }
    case _ =>
  }

  /** The result's sample totals are the numbers of samples added, whenever they were added. */
  lemma ResultCountsSamples(u: Setup, events: seq<Event>, end: int)
    requires u.c.p.Sane()
    ensures var r := ResultOf(u, Played(u, events), end);
            && (r.Some? <==> Played(u, events).over)
            && (r.Some? ==> r.value.summary.phaseForeign == |SamplesIn(events, false)|
                            && r.value.summary.phaseSelf == |SamplesIn(events, true)|)
  {
    hide Played, SummaryOf, After, Collected, MeanRate;
    var v := Played(u, events);
    LeftHasReason(u, events);
    SamplesConserved(u, events);
    PhaseTotals(u.c, v.h, v.shared.curF, v.shared.curS, SamplesIn(events, false), SamplesIn(events, true));
  }

  // ---- The loop meets what the engine assumes of its driver ----

  /** The driver opens exactly what it is asked to, and reports it. */
  predicate Obeys(u: Setup, v: Phase)
    requires u.c.p.Sane()
  {
    && Driven(u.c, v.h) && v.flows == OpenFlows(u.c, v.h)
    && (!v.over && v.h != [] ==> !Decided(u.c, v.h).stop)
  }

  lemma {:induction false} LoopObeys(u: Setup, events: seq<Event>)
    requires u.c.p.Sane() && u.c.maxFlows >= 1
    ensures Obeys(u, Played(u, events))
    ensures 1 <= Played(u, events).flows <= u.c.maxFlows
  {
    if events == [] {
    } else {
      hide Handled, Obeys;
      LoopObeys(u, events[..|events| - 1]);
      ObeysStep(u, Played(u, events[..|events| - 1]), events[|events| - 1]);
    }
    FlowsWithin(u, Played(u, events));
  }

  lemma FlowsWithin(u: Setup, v: Phase)
    requires u.c.p.Sane() && u.c.maxFlows >= 1 && (Obeys(u, v) || v == Begun(u))
    ensures Obeys(u, v) && 1 <= v.flows <= u.c.maxFlows
  {
    FlowsBounded(u.c, v.h);
  }

  lemma ObeysStep(u: Setup, v: Phase, e: Event)
    requires u.c.p.Sane() && u.c.maxFlows >= 1 && Obeys(u, v)
    ensures Obeys(u, Handled(u, v, e))
  {
    hide Decided, Driven, OpenFlows, Stopped, Failed, WithTraffic, WithSample;
    if e.Tick? && !v.over {
      var o := Observed(u.c.p, v, e.now);
      DrivenMore(u.c, v.h, o);
      OpensAsTold(u.c, v.h + [o]);
    }
  }

  /** Elapsed times are positive, and byte counts never decrease, up to the given one. */
  predicate SaneFeed(h: seq<Observation>, bytes: int) {
    && (forall i :: 0 <= i < |h| ==> h[i].elapsed > 0 && 0 <= h[i].bytes <= bytes)
    && (forall i, j :: 0 <= i < j < |h| ==> h[i].bytes <= h[j].bytes)
  }

  lemma SaneFeedMore(h: seq<Observation>, o: Observation, bytes: int)
    requires SaneFeed(h, bytes) && o.elapsed > 0 && 0 <= o.bytes == bytes
    ensures SaneFeed(h + [o], bytes)
  {
  }

  lemma SaneFeedLater(h: seq<Observation>, bytes: int, more: int)
    requires SaneFeed(h, bytes) && bytes <= more
    ensures SaneFeed(h, more)
  {
  }

  lemma {:induction false} FeedsSanely(u: Setup, events: seq<Event>)
    requires u.c.p.Sane()
    ensures SaneFeed(Played(u, events).h, Played(u, events).shared.payload)
  {
    if events == [] {
    } else {
      hide Handled;
      FeedsSanely(u, events[..|events| - 1]);
      FeedStep(u, Played(u, events[..|events| - 1]), events[|events| - 1]);
    }
  }

  lemma FeedStep(u: Setup, v: Phase, e: Event)
    requires u.c.p.Sane() && SaneFeed(v.h, v.shared.payload)
    ensures SaneFeed(Handled(u, v, e).h, Handled(u, v, e).shared.payload)
  {
    hide SaneFeed, Decided;
    if e.Tick? && !v.over {
      SaneFeedMore(v.h, Observed(u.c.p, v, e.now), v.shared.payload);
    } else {
      SaneFeedLater(v.h, v.shared.payload, Handled(u, v, e).shared.payload);
    }
  }

  // ---- Why the phase ended ----

  /** The reason with which an event calls stop, if it does. */
  function StopOf(u: Setup, v: Phase, e: Event): Option<Reason>
    requires u.c.p.Sane()
  {
    match e
    case Sample(_, _) => None
    case Traffic(bytes, _) => if u.limit > 0 && v.shared.total + bytes >= u.limit then Some(BytesCap) else None
    case FlowFailed(_) => Some(FlowError)
    case Tick(now) =>
      if !v.over && Decided(u.c, v.h + [Observed(u.c.p, v, now)]).stop then Some(Finished) else None
    case Done(cancelled) => if v.over then None else Some(ContextReason(cancelled))
  }

  function StopAt(u: Setup, events: seq<Event>, i: nat): Option<Reason>
    requires u.c.p.Sane() && i < |events|
  {
    StopOf(u, Played(u, events[..i]), events[i])
  }

  /** The first of the phase's events that stop it do so for the given reason. */
  ghost predicate FirstStop(u: Setup, events: seq<Event>, why: Reason)
    requires u.c.p.Sane()
  {
    exists i :: 0 <= i < |events| && StopAt(u, events, i) == Some(why)
      && forall j :: 0 <= j < i ==> StopAt(u, events, j).None?
  }

  lemma StopAtPrefix(u: Setup, events: seq<Event>, i: nat)
    requires u.c.p.Sane() && i < |events| - 1
    ensures StopAt(u, events, i) == StopAt(u, events[..|events| - 1], i)
  {
    hide StopOf, Handled;
    assert events[..|events| - 1][..i] == events[..i];
  }

  lemma HandledReason(u: Setup, v: Phase, e: Event)
    requires u.c.p.Sane()
    ensures Handled(u, v, e).shared.reason == if v.shared.reason.None? then StopOf(u, v, e) else v.shared.reason
  {
    hide Decided;
  }

  lemma StopAtLast(u: Setup, events: seq<Event>)
    requires u.c.p.Sane() && events != []
    ensures var before, r := Played(u, events[..|events| - 1]).shared.reason, StopAt(u, events, |events| - 1);
            Played(u, events).shared.reason == if before.None? then r else before
  {
    hide Handled, StopOf;
    HandledReason(u, Played(u, events[..|events| - 1]), events[|events| - 1]);
  }

  /**
   The reported reason is that of the first event that stopped the phase: a flow error or the
   byte cap that comes first is never masked by the engine's stop or by the teardown, and the
   result is truncated exactly if the engine was not the first to stop it.
   */
  lemma {:induction false} ReasonIsFirst(u: Setup, events: seq<Event>)
    requires u.c.p.Sane()
    ensures var r := Played(u, events).shared.reason;
            && (r.None? <==> forall i :: 0 <= i < |events| ==> StopAt(u, events, i).None?)
            && (r.Some? ==> FirstStop(u, events, r.value))
  {
    if events == [] {
    } else {
      hide Played, StopAt;
      var before := events[..|events| - 1];
      ReasonIsFirst(u, before);
      StopAtLast(u, events);
      forall i | 0 <= i < |before| ensures StopAt(u, events, i) == StopAt(u, before, i) {
        StopAtPrefix(u, events, i);
      }
    }
  }

  function BytesIn(events: seq<Event>, payloadOnly: bool): nat {
    if events == [] then 0
    else
      var e := events[|events| - 1];
      BytesIn(events[..|events| - 1], payloadOnly) + if e.Traffic? && (e.payload || !payloadOnly) then e.bytes else 0
  }

  /** Both totals are those of the bytes moved; the cap has stopped the phase if the cost has reached it. */
  predicate BytesAccounted(u: Setup, s: Shared, cost: nat, payload: nat) {
    && s.total == cost && s.payload == payload
    && (s.reason == Some(BytesCap) ==> 0 < u.limit <= cost)
    && (0 < u.limit <= cost ==> s.reason.Some?)
  }

  lemma {:induction false} BytesCounted(u: Setup, events: seq<Event>)
    requires u.c.p.Sane()
    ensures BytesAccounted(u, Played(u, events).shared, BytesIn(events, false), BytesIn(events, true))
  {
    if events == [] {
    } else {
      hide Handled, BytesAccounted;
      BytesCounted(u, events[..|events| - 1]);
      BytesStep(u, Played(u, events[..|events| - 1]), events[|events| - 1],
                BytesIn(events[..|events| - 1], false), BytesIn(events[..|events| - 1], true));
    }
    NoBytesAccounted(u);
  }

  lemma NoBytesAccounted(u: Setup)
    ensures BytesAccounted(u, NOTHING, 0, 0)
  {
  }

  lemma BytesStep(u: Setup, v: Phase, e: Event, cost: nat, payload: nat)
    requires u.c.p.Sane() && BytesAccounted(u, v.shared, cost, payload)
    ensures BytesAccounted(u, Handled(u, v, e).shared, cost + (if e.Traffic? then e.bytes else 0),
                      payload + (if e.Traffic? && e.payload then e.bytes else 0))
  {
    hide Decided;
  }

  /** A phase reported as finished is one whose engine has stopped. */
  predicate StoppedByEngine(u: Setup, v: Phase)
    requires u.c.p.Sane()
  {
    v.shared.reason == Some(Finished) ==> v.over && v.h != [] && Decided(u.c, v.h).stop
  }

  lemma {:induction false} FinishedMeansStopped(u: Setup, events: seq<Event>)
    requires u.c.p.Sane()
    ensures StoppedByEngine(u, Played(u, events))
  {
    if events == [] {
    } else {
      hide Handled;
      FinishedMeansStopped(u, events[..|events| - 1]);
      FinishedStep(u, Played(u, events[..|events| - 1]), events[|events| - 1]);
    }
  }

  lemma FinishedStep(u: Setup, v: Phase, e: Event)
    requires u.c.p.Sane() && StoppedByEngine(u, v)
    ensures StoppedByEngine(u, Handled(u, v, e))
  {
    hide Decided;
  }

  /** Event i is the first to stop the phase, and it is a tick on which the engine decided to stop. */
  predicate EngineFirst(u: Setup, events: seq<Event>, i: int)
    requires u.c.p.Sane()
  {
    && 0 <= i < |events| && events[i].Tick? && StopAt(u, events, i) == Some(Finished)
    && forall j :: 0 <= j < i ==> StopAt(u, events, j).None?
  }

  lemma OnlyTicksFinish(u: Setup, events: seq<Event>, i: nat)
    requires u.c.p.Sane() && i < |events| && StopAt(u, events, i) == Some(Finished)
    ensures events[i].Tick?
  {
    hide Decided, Played;
  }

  lemma OneFirst(u: Setup, events: seq<Event>, i: nat, k: int)
    requires u.c.p.Sane() && EngineFirst(u, events, k)
    requires i < |events| && StopAt(u, events, i).Some? && forall j :: 0 <= j < i ==> StopAt(u, events, j).None?
    ensures StopAt(u, events, i) == Some(Finished)
  {
    hide StopAt;
  }

  /**
   A phase that has left its loop is reported as not truncated exactly if the engine's stop
   came first; the engine has then stopped, and otherwise the reason is that of the first
   event to stop the phase.
   */
  lemma TruncatedExactly(u: Setup, events: seq<Event>, end: int)
    requires u.c.p.Sane() && Played(u, events).over
    ensures var r := ResultOf(u, Played(u, events), end);
            && r.Some? && FirstStop(u, events, r.value.reason)
            && (!r.value.truncated <==> r.value.reason.Finished?)
            && (!r.value.truncated <==> exists i :: EngineFirst(u, events, i))
            && (!r.value.truncated ==> Played(u, events).h != [] && Decided(u.c, Played(u, events).h).stop)
  {
    hide Played, StopAt, SummaryOf, After, Decided, MeanRate;
    LeftHasReason(u, events);
    ReasonIsFirst(u, events);
    FinishedMeansStopped(u, events);
    var why := Played(u, events).shared.reason.value;
    var i :| 0 <= i < |events| && StopAt(u, events, i) == Some(why)
             && forall j :: 0 <= j < i ==> StopAt(u, events, j).None?;
    if why == Finished {
      OnlyTicksFinish(u, events, i);
      assert EngineFirst(u, events, i);
    } else {
      forall k ensures !EngineFirst(u, events, k) {
        if EngineFirst(u, events, k) {
          OneFirst(u, events, i, k);
        }
      }
    }
  }

  // ---- What each tick tells the engine ----

  /** The time of the latest tick among the events; start when there is none. */
  function LatestTick(start: int, events: seq<Event>): int {
    if events == [] then start
    else if events[|events| - 1].Tick? then events[|events| - 1].now
    else LatestTick(start, events[..|events| - 1])
  }

  /** Until the loop is left every tick is handled. */
  lemma {:induction false} LastTickIsLatest(u: Setup, events: seq<Event>)
    requires u.c.p.Sane() && !Played(u, events).over
    ensures Played(u, events).lastTick == LatestTick(u.start, events)
  {
    if events == [] {
    } else {
      hide Decided;
      LastTickIsLatest(u, events[..|events| - 1]);
    }
  }

  lemma HandledGrows(u: Setup, v: Phase, e: Event)
    requires u.c.p.Sane()
    ensures v.h <= Handled(u, v, e).h
  {
    hide Decided;
  }

  lemma {:induction false} HistoryGrows(u: Setup, events: seq<Event>, i: nat)
    requires u.c.p.Sane() && i <= |events|
    ensures Played(u, events[..i]).h <= Played(u, events).h
  {
    hide Handled;
    if i == |events| {
      assert events[..i] == events;
    } else {
      HistoryGrows(u, events[..|events| - 1], i);
      assert events[..|events| - 1][..i] == events[..i];
      HandledGrows(u, Played(u, events[..|events| - 1]), events[|events| - 1]);
    }
  }

  /** The observation made at event i: time since the tick before it, and payload moved before it. */
  predicate ObservedAt(u: Setup, events: seq<Event>, i: nat, o: Observation)
    requires u.c.p.Sane() && i < |events| && events[i].Tick?
  {
    var since := events[i].now - LatestTick(u.start, events[..i]);
    && o.elapsed == (if since > 0 then since else u.c.p.interval)
    && o.bytes == BytesIn(events[..i], true)
    && o.flows == OpenFlows(u.c, Played(u, events[..i]).h)
  }

  /** Every tick that comes before the loop is left makes one observation, which stays where it is. */
  lemma TickObserved(u: Setup, events: seq<Event>, i: nat)
    requires u.c.p.Sane() && u.c.maxFlows >= 1
    requires i < |events| && events[i].Tick? && !Played(u, events[..i]).over
    ensures var n := |Played(u, events[..i]).h|;
            && |Played(u, events[..i + 1]).h| == n + 1 <= |Played(u, events).h|
            && ObservedAt(u, events, i, Played(u, events).h[n])
  {
    hide Played, OpenFlows, Driven, Decided;
    var before, v := events[..i], Played(u, events[..i]);
    LastTickIsLatest(u, before);
    BytesCounted(u, before);
    LoopObeys(u, before);
    TickHandled(u, events, i);
    HistoryGrows(u, events, i + 1);
    assert Played(u, events).h[|v.h|] == Played(u, events[..i + 1]).h[|v.h|];
  }

  lemma TickHandled(u: Setup, events: seq<Event>, i: nat)
    requires u.c.p.Sane() && i < |events| && events[i].Tick? && !Played(u, events[..i]).over
    ensures var v := Played(u, events[..i]);
            Played(u, events[..i + 1]).h == v.h + [Observed(u.c.p, v, events[i].now)]
  {
    hide Decided;
    assert events[..i + 1][..i] == events[..i];
  }

  function ElapsedTotal(h: seq<Observation>): int {
    if h == [] then 0 else ElapsedTotal(h[..|h| - 1]) + h[|h| - 1].elapsed
  }

  /** Every tick is later than the start and than the ticks before it. */
  predicate TicksAdvance(start: int, events: seq<Event>) {
    forall i :: 0 <= i < |events| && events[i].Tick? ==> events[i].now > LatestTick(start, events[..i])
  }

  /** The intervals fed to the engine leave no time out and count none twice. */
  lemma {:induction false} ElapsedAddsUp(u: Setup, events: seq<Event>)
    requires u.c.p.Sane() && TicksAdvance(u.start, events)
    ensures ElapsedTotal(Played(u, events).h) == Played(u, events).lastTick - u.start
  {
    if events == [] {
    } else {
      hide Handled;
      var before, e := events[..|events| - 1], events[|events| - 1];
      assert TicksAdvance(u.start, before) by {
        forall i | 0 <= i < |before| && before[i].Tick? ensures before[i].now > LatestTick(u.start, before[..i]) {
          assert before[..i] == events[..i];
        }
      }
      ElapsedAddsUp(u, before);
      if !Played(u, before).over {
        LastTickIsLatest(u, before);
      }
      ElapsedStep(u, Played(u, before), e);
    }
  }

  lemma ElapsedStep(u: Setup, v: Phase, e: Event)
    requires u.c.p.Sane() && (e.Tick? && !v.over ==> e.now > v.lastTick)
    ensures var n := Handled(u, v, e); ElapsedTotal(n.h) - ElapsedTotal(v.h) == n.lastTick - v.lastTick
  {
    hide Decided, ElapsedTotal;
    if e.Tick? && !v.over {
      ElapsedMore(v.h, Observed(u.c.p, v, e.now));
    }
  }

  lemma ElapsedMore(h: seq<Observation>, o: Observation)
    ensures ElapsedTotal(h + [o]) == ElapsedTotal(h) + o.elapsed
  {
    assert (h + [o])[..|h|] == h;
  }

  // ---- The figures of the result ----

  function ErrorsIn(events: seq<Event>): seq<string> {
    if events == [] then []
    else
      var e := events[|events| - 1];
      ErrorsIn(events[..|events| - 1]) + if e.FlowFailed? then [e.error] else []
  }

  /** Every failed flow is counted, and the first one's error is kept. */
  lemma {:induction false} FailuresCounted(u: Setup, events: seq<Event>)
    requires u.c.p.Sane()
    ensures var s, errors := Played(u, events).shared, ErrorsIn(events);
            s.flowErrs == |errors| && s.flowErr == if errors == [] then None else Some(errors[0])
  {
    if events == [] {
    } else {
      hide Handled;
      FailuresCounted(u, events[..|events| - 1]);
      FailureStep(u, Played(u, events[..|events| - 1]), events[|events| - 1]);
    }
  }

  lemma FailureStep(u: Setup, v: Phase, e: Event)
    requires u.c.p.Sane()
    ensures var s, n := v.shared, Handled(u, v, e).shared;
            if e.FlowFailed? then
              n.flowErrs == s.flowErrs + 1 && n.flowErr == if s.flowErr.None? then Some(e.error) else s.flowErr
            else n.flowErrs == s.flowErrs && n.flowErr == s.flowErr
  {
    hide Decided;
  }

  /**
   The result's own figures: the cost of everything moved, the flows the engine asked for, the
   phase's length, its failures, and a throughput that is the mean payload rate of the phase
   when there was no interval.
   */
  lemma ResultFigures(u: Setup, events: seq<Event>, end: int)
    requires u.c.p.Sane() && u.c.maxFlows >= 1 && Played(u, events).over
    ensures var r, h := ResultOf(u, Played(u, events), end), Played(u, events).h;
            && r.Some?
            && r.value.bytes == BytesIn(events, false) && r.value.flows == OpenFlows(u.c, h)
            && r.value.duration == end - u.start && r.value.flowErrors == |ErrorsIn(events)|
            && (h != [] ==> r.value.throughput == r.value.summary.throughput)
            && (h == [] && end > u.start ==>
                  r.value.throughput * r.value.duration as real == BytesIn(events, true) as real * 8.0 * SECOND as real)
  {
    hide Played, SummaryOf, After, OpenFlows, Driven, Decided;
    LeftHasReason(u, events);
    BytesCounted(u, events);
    LoopObeys(u, events);
    FailuresCounted(u, events);
    if end > u.start {
      RateTimesTime(Played(u, events).shared.payload, end - u.start);
    }
  }

  lemma RateTimesTime(bytes: int, elapsed: int)
    requires elapsed > 0
    ensures Rate(bytes, elapsed) * elapsed as real == bytes as real * 8.0 * SECOND as real
  {
    var t := elapsed as real / SECOND as real;
    assert bytes as real * 8.0 / t * t == bytes as real * 8.0;
    assert t * SECOND as real == elapsed as real;
  }

  /** The kind of event that can give a reason. */
  predicate Causes(e: Event, why: Reason) {
    match why
    case Finished => e.Tick?
    case BytesCap => e.Traffic?
    case DurationCap => e.Done? && !e.cancelled
    case Cancelled => e.Done? && e.cancelled
    case FlowError => e.FlowFailed?
  }

  /** Behind the reported reason is an event of its kind, and no event before it called for a stop. */
  lemma ReasonHasCause(u: Setup, events: seq<Event>) returns (i: nat)
    requires u.c.p.Sane() && Played(u, events).shared.reason.Some?
    ensures i < |events| && Causes(events[i], Played(u, events).shared.reason.value)
    ensures forall j :: 0 <= j < i ==> StopAt(u, events, j).None?
  {
    hide Played, Decided;
    var why := Played(u, events).shared.reason.value;
    ReasonIsFirst(u, events);
    i :| 0 <= i < |events| && StopAt(u, events, i) == Some(why)
         && forall j :: 0 <= j < i ==> StopAt(u, events, j).None?;
  }

  /** Downloads have no send-buffer credit to wait for unless they ask for it, and uploads may decline it. */
  lemma CreditByDirection(sp: Params, upload: bool, maxFlows: int, h: seq<Observation>)
    requires h != []
    ensures var c := Config(ParamsFor(sp, upload).WithDefaults(), maxFlows);
            && (sp.sendBufferBytes < 0 || (!upload && sp.sendBufferBytes == 0) ==> !Drained(c, h))
            && (upload && sp.sendBufferBytes == 0 ==> SendCredit(c, h) == 4 * 1024 * 1024 * Added(c, h))
            && (sp.sendBufferBytes > 0 ==> SendCredit(c, h) == sp.sendBufferBytes * Added(c, h))
  {
    hide Added;
    var c := Config(ParamsFor(sp, upload).WithDefaults(), maxFlows);
    if c.p.sendBufferBytes == 0 {
      assert SendCredit(c, Past(h)) == 0;
    }
  }
}
