/**
 The responsiveness of a simulated phase: whatever the jitter of ticks and probes, the flows and
 the windows, every figure the engine reports lies between that of the idle path and that of a
 full buffer.
 */
module LoadedLatency {
  import opened Series
  import opened Stats
  import opened Stability
  import opened Engine
  import opened History
  import opened Ramp
  import opened Windows
  import opened Samples
  import opened Fluid
  import opened RoundTrips
  import opened SimTrace

  // ---- Probes in a band ----

  /** A simulated probe of either kind whose latency lies in the band. */
  predicate IsProbe(s: LatencySample, self: bool, low: int, high: int) {
    s == (if self then SelfProbe(s.http) else ForeignProbe(s.http)) && low <= s.http <= high
  }

  predicate AllProbes(samples: seq<LatencySample>, self: bool, low: int, high: int) {
    forall k :: 0 <= k < |samples| ==> IsProbe(samples[k], self, low, high)
  }

  lemma {:induction false} FlattenProbes(xss: seq<seq<LatencySample>>, self: bool, low: int, high: int)
    ensures AllProbes(Flatten(xss), self, low, high)
            <==> forall i :: 0 <= i < |xss| ==> AllProbes(xss[i], self, low, high)
  {
    hide IsProbe;
    if xss == [] {
    } else {
      var rest, last := xss[..|xss| - 1], xss[|xss| - 1];
      FlattenProbes(rest, self, low, high);
      ProbesOfBoth(Flatten(rest), last, self, low, high);
      assert forall i :: 0 <= i < |rest| ==> rest[i] == xss[i];
    }
  }

  lemma ProbesOfBoth(a: seq<LatencySample>, b: seq<LatencySample>, self: bool, low: int, high: int)
    ensures AllProbes(a + b, self, low, high) <==> AllProbes(a, self, low, high) && AllProbes(b, self, low, high)
  {
    hide IsProbe;
    var c := a + b;
    if AllProbes(c, self, low, high) {
      forall k | 0 <= k < |a| ensures IsProbe(a[k], self, low, high) {
        assert c[k] == a[k];
      }
      forall k | 0 <= k < |b| ensures IsProbe(b[k], self, low, high) {
        assert c[|a| + k] == b[k];
      }
    }
  }

  /** A figure that lies between the round trips per minute of the two latencies. */
  predicate RateBetween(rate: real, low: int, high: int) {
    rate * low as real <= MINUTE as real <= rate * high as real
  }

  lemma RPMBetween(rtt: int, low: int, high: int)
    requires 0 < low <= rtt <= high
    ensures RPM(rtt) > 0.0 && RateBetween(RPM(rtt), low, high)
  {
    RPMTimes(rtt);
    ScaleAtMost(RPM(rtt), low as real, rtt as real);
    ScaleAtMost(RPM(rtt), rtt as real, high as real);
  }

  lemma RatesMeet(a: real, b: real, low: int, high: int)
    requires RateBetween(a, low, high) && RateBetween(b, low, high)
    ensures RateBetween((a + b) / 2.0, low, high)
  {
    var m := (a + b) / 2.0;
    assert 2.0 * (m * low as real) == a * low as real + b * low as real;
    assert 2.0 * (m * high as real) == a * high as real + b * high as real;
  }

  lemma ForeignBetween(foreign: seq<LatencySample>, tmp: real, low: int, high: int)
    requires foreign != [] && 0.0 < tmp <= 100.0 && 0 < low && AllProbes(foreign, false, low, high)
    ensures low <= ForeignRTT(Connect(foreign, tmp), Handshake(foreign, tmp), Exchange(foreign, tmp)) <= high
  {
    hide TrimmedMeanOf;
    forall k | 0 <= k < |foreign| ensures TLSPerRTT(foreign[k]) == foreign[k].http && low <= foreign[k].http <= high {
      assert IsProbe(foreign[k], false, low, high);
    }
    TrimmedInBand(DurationsOf(foreign, CONNECT), tmp, low, high);
    TrimmedInBand(DurationsOf(foreign, TLS), tmp, low, high);
    TrimmedInBand(DurationsOf(foreign, HTTP), tmp, low, high);
  }

  /** Probes whose latencies lie in a band give figures that do, on either side and together. */
  lemma FiguresBetween(foreign: seq<LatencySample>, self: seq<LatencySample>, tmp: real, low: int, high: int)
    requires 0.0 < tmp <= 100.0 && 0 < low
    requires AllProbes(foreign, false, low, high) && AllProbes(self, true, low, high)
    ensures var r := ResponsivenessOf(foreign, self, tmp);
            && (foreign != [] ==> RateBetween(r.foreign, low, high))
            && (self != [] ==> RateBetween(r.self, low, high))
            && (foreign != [] || self != [] ==> RateBetween(r.total, low, high))
            && (foreign == [] && self == [] ==> r.total == 0.0)
  {
    hide TrimmedMeanOf, RPM, RateBetween, ForeignRTT;
    if foreign != [] {
      ForeignBetween(foreign, tmp, low, high);
      RPMBetween(ForeignRTT(Connect(foreign, tmp), Handshake(foreign, tmp), Exchange(foreign, tmp)), low, high);
    }
    if self != [] {
      assert forall k :: 0 <= k < |self| ==> IsProbe(self[k], true, low, high);
      TrimmedInBand(DurationsOf(self, HTTP), tmp, low, high);
      RPMBetween(Exchange(self, tmp), low, high);
    }
    if foreign != [] && self != [] {
      var r := ResponsivenessOf(foreign, self, tmp);
      RatesMeet(r.foreign, r.self, low, high);
    }
  }

  // ---- The latencies of a run ----

  /** The longest a probe can take: a full buffer drains before it, and 2 ms of noise. */
  function Slowest(link: Link): int {
    LoadedRTT(link, link.capacity, link.queueBytes) + 2 * MILLISECOND
  }

  /** A link that keeps its capacity, with a bounded buffer. */
  predicate Bounded(link: Link) {
    link.Valid() && link.changeAt <= 0 && link.capacity > 0.0 && link.queueBytes >= 0.0 && link.rtt > 0
  }

  lemma QueueDelay(link: Link, a: real, b: real)
    requires link.capacity > 0.0 && 0.0 <= a <= b
    ensures link.rtt <= LoadedRTT(link, link.capacity, a) <= LoadedRTT(link, link.capacity, b)
  {
    var x, y := a * 8.0 / link.capacity, b * 8.0 / link.capacity;
    DivideAtLeast(a * 8.0, 0.0, link.capacity);
    assert x * link.capacity == a * 8.0;
    DivideAtLeast(b * 8.0, x, link.capacity);
    TruncateMonotone(x * SECOND as real, y * SECOND as real);
  }

  lemma LatencyBounded(link: Link, t: Trace, x: Shot)
    requires Bounded(link) && Lawful(link, t.steps) && Fired(link, t, x)
    ensures link.rtt <= x.latency <= Slowest(link)
  {
    hide LoadedRTT, Lawful;
    LawfulPrefix(link, t.steps, x.step);
    Within(link, t.steps[..x.step]);
    QueueDelay(link, QueueAfter(t.steps[..x.step]), link.queueBytes);
  }

  lemma ShotsBounded(link: Link, c: Config, t: Trace, shots: seq<Shot>, upTo: int)
    requires c.p.Sane() && Bounded(link) && Lawful(link, t.steps) && Scheduled(link, c, t, shots, upTo)
    ensures AllProbes(ForeignProbes(shots), false, link.rtt, Slowest(link))
    ensures AllProbes(SelfProbes(shots), true, link.rtt, Slowest(link))
  {
    hide Fired, Due, FirstFrom, Lawful, Slowest, NextDue, Bounded;
    forall i | 0 <= i < |shots| ensures link.rtt <= shots[i].latency <= Slowest(link) {
      LatencyBounded(link, t, shots[i]);
    }
  }

  /** All samples of the phase, in the intervals and in progress, are probes in the band. */
  predicate AllInBand(h: seq<Observation>, curF: seq<LatencySample>, curS: seq<LatencySample>, low: int, high: int) {
    && (forall i :: 0 <= i < |h| ==> AllProbes(h[i].foreign, false, low, high))
    && (forall i :: 0 <= i < |h| ==> AllProbes(h[i].self, true, low, high))
    && AllProbes(curF, false, low, high) && AllProbes(curS, true, low, high)
  }

  lemma GatheredInBand(h: seq<Observation>, curF: seq<LatencySample>, curS: seq<LatencySample>, shots: seq<Shot>,
                       low: int, high: int)
    requires Gathered(h, curF, curS, shots)
    requires AllProbes(ForeignProbes(shots), false, low, high) && AllProbes(SelfProbes(shots), true, low, high)
    ensures AllInBand(h, curF, curS, low, high)
  {
    hide AllProbes;
    ProbesOfBoth(Flatten(ForeignOf(h)), curF, false, low, high);
    ProbesOfBoth(Flatten(SelfOf(h)), curS, true, low, high);
    FlattenProbes(ForeignOf(h), false, low, high);
    FlattenProbes(SelfOf(h), true, low, high);
    forall i | 0 <= i < |h|
      ensures AllProbes(h[i].foreign, false, low, high) && AllProbes(h[i].self, true, low, high)
    {
      assert ForeignOf(h)[i] == h[i].foreign && SelfOf(h)[i] == h[i].self;
    }
  }

  // ---- The figures of a run ----

  /** Zero for want of samples, or between the figures of the two latencies. */
  predicate Plausible(rate: real, low: int, high: int) {
    rate == 0.0 || RateBetween(rate, low, high)
  }

  /** The responsiveness over any run of intervals of the phase. */
  lemma SpanPlausible(h: seq<Observation>, curF: seq<LatencySample>, curS: seq<LatencySample>, tmp: real, low: int,
                      high: int, from: nat, to: nat)
    requires AllInBand(h, curF, curS, low, high) && 0.0 < tmp <= 100.0 && 0 < low && from <= to <= |h|
    ensures Plausible(ResponsivenessOf(Flatten(ForeignOf(h)[from..to]), Flatten(SelfOf(h)[from..to]), tmp).total, low,
                      high)
    ensures AllProbes(Flatten(ForeignOf(h)[from..to]), false, low, high)
    ensures AllProbes(Flatten(SelfOf(h)[from..to]), true, low, high)
  {
    hide AllProbes, ResponsivenessOf, RateBetween, Flatten;
    FlattenProbes(ForeignOf(h)[from..to], false, low, high);
    FlattenProbes(SelfOf(h)[from..to], true, low, high);
    FiguresBetween(Flatten(ForeignOf(h)[from..to]), Flatten(SelfOf(h)[from..to]), tmp, low, high);
  }

  lemma DecisionPlausible(c: Config, h: seq<Observation>, low: int, high: int)
    requires c.p.Sane() && h != [] && AllInBand(h, [], [], low, high) && 0 < low
    ensures Plausible(Decided(c, h).rpm, low, high)
  {
    hide Decided, After, AllInBand, ResponsivenessOf, RateBetween, Flatten, UnderLoad, Added, Stops, StableSince, Held;
    hide Drained, StableWindowed, CurrentOf, GoodputsFrom, LastRestart, RPMs;
    EngineIsItsHistory(c, h);
    var from := if |h| < c.p.mad then 0 else |h| - c.p.mad;
    assert Trailing(ForeignOf(h), c.p.mad) == ForeignOf(h)[from..|h|];
    assert Trailing(SelfOf(h), c.p.mad) == SelfOf(h)[from..|h|];
    SpanPlausible(h, [], [], c.p.trimmedMeanPercent, low, high, from, |h|);
  }

  lemma BoundPlausible(c: Config, h: seq<Observation>, low: int, high: int)
    requires c.p.Sane() && AllInBand(h, [], [], low, high) && 0 < low
    ensures Plausible(After(c, h).lb.rpm, low, high)
  {
    hide After, AllInBand, ResponsivenessOf, RateBetween, Flatten, IsMeasured, LowOf, LastRestart, ForeignOf, SelfOf;
    if After(c, h).lb != NO_BOUND {
      BoundQuality(c, h);
      var b := After(c, h).lb;
      SpanPlausible(h, [], [], c.p.trimmedMeanPercent, low, high, b.start - 1, b.start - 1 + c.p.mad);
    }
  }

  /** The responsiveness the summary reports, from its window or from the whole phase. */
  lemma SummaryPlausible(c: Config, h: seq<Observation>, curF: seq<LatencySample>, curS: seq<LatencySample>,
                         shots: seq<Shot>, low: int, high: int)
    requires c.p.Sane() && Gathered(h, curF, curS, shots) && AllInBand(h, curF, curS, low, high) && 0 < low
    requires AllProbes(ForeignProbes(shots), false, low, high) && AllProbes(SelfProbes(shots), true, low, high)
    ensures var r := SummaryOf(c.p, After(c, h), curF, curS).rates;
            Plausible(r.total, low, high) && (shots != [] ==> RateBetween(r.total, low, high))
  {
    hide After, AllInBand, ResponsivenessOf, RateBetween, Flatten, ForeignOf, SelfOf, SummaryOf, AllProbes, SteadyFrom;
    var allF, allS := ForeignProbes(shots), SelfProbes(shots);
    SummaryWindow(c, h, curF, curS, allF, allS);
    var from := SteadyFrom(c, h);
    FiguresBetween(allF, allS, c.p.trimmedMeanPercent, low, high);
    var to := |ForeignOf(h)|;
    assert ForeignOf(h)[from - 1..] == ForeignOf(h)[from - 1..to] && SelfOf(h)[from - 1..] == SelfOf(h)[from - 1..to];
    SpanPlausible(h, curF, curS, c.p.trimmedMeanPercent, low, high, from - 1, to);
    FiguresBetween(Flatten(ForeignOf(h)[from - 1..]), Flatten(SelfOf(h)[from - 1..]), c.p.trimmedMeanPercent, low,
                   high);
  }

  /**
   Responsiveness is never over-reported nor under-reported: on a link of constant capacity with
   a bounded buffer, every figure after every tick, the one beside the lower bound and the final
   one lie between one round trip per idle round-trip time and one per full buffer and noise.
   */
  lemma ResponsivenessBetween(link: Link, c: Config, t: Trace, shots: seq<Shot>, curF: seq<LatencySample>,
                              curS: seq<LatencySample>, n: nat)
    requires c.p.Sane() && Bounded(link) && Follows(link, c, t) && n <= |t.h|
    requires Scheduled(link, c, t, shots, |t.steps|) && Gathered(t.h, curF, curS, shots)
    ensures n > 0 ==> Plausible(Decided(c, t.h[..n]).rpm, link.rtt, Slowest(link))
    ensures Plausible(After(c, t.h[..n]).lb.rpm, link.rtt, Slowest(link))
    ensures t.steps != [] ==>
              RateBetween(SummaryOf(c.p, After(c, t.h), curF, curS).rates.total, link.rtt, Slowest(link))
  {
    hide Decided, After, SummaryOf, Slowest, Plausible, RateBetween, Gathered, Lawful, Driven, Sampled, AllProbes;
    ShotsBounded(link, c, t, shots, |t.steps|);
    GatheredInBand(t.h, curF, curS, shots, link.rtt, Slowest(link));
    var h := t.h[..n];
    assert AllInBand(h, [], [], link.rtt, Slowest(link)) by { NoProbes(link.rtt, Slowest(link)); }
    if n > 0 {
      DecisionPlausible(c, h, link.rtt, Slowest(link));
    }
    BoundPlausible(c, h, link.rtt, Slowest(link));
    SummaryPlausible(c, t.h, curF, curS, shots, link.rtt, Slowest(link));
  }

  lemma NoProbes(low: int, high: int)
    ensures AllProbes([], false, low, high) && AllProbes([], true, low, high)
  {
  }
}
