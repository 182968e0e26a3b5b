/**
 Where probe samples go (internal/engine/engine.go): none is lost or counted twice between
 the probes, the intervals and the summary; what window the final figures are computed
 from; and how the spacing of probes keeps their traffic under its share of goodput.
 */
module Samples {
  import opened Series
  import opened Stats
  import opened Stability
  import opened Engine
  import opened History

  /** All samples given so far: those of the intervals in h, then those of the interval in progress. */
  predicate Collected(h: seq<Observation>, curF: seq<LatencySample>, curS: seq<LatencySample>,
                      allF: seq<LatencySample>, allS: seq<LatencySample>)
  {
    Flatten(ForeignOf(h)) + curF == allF && Flatten(SelfOf(h)) + curS == allS
  }

  lemma CollectedMore(h: seq<Observation>, curF: seq<LatencySample>, curS: seq<LatencySample>,
                      allF: seq<LatencySample>, allS: seq<LatencySample>, f: seq<LatencySample>, s: seq<LatencySample>)
    requires Collected(h, curF, curS, allF, allS)
    ensures Collected(h, curF + f, curS + s, allF + f, allS + s)
  {
    assert Flatten(ForeignOf(h)) + curF + f == Flatten(ForeignOf(h)) + (curF + f);
    assert Flatten(SelfOf(h)) + curS + s == Flatten(SelfOf(h)) + (curS + s);
  }

  /** An interval that carries off the samples in progress moves them, and changes nothing else. */
  lemma CollectedTick(h: seq<Observation>, o: Observation, allF: seq<LatencySample>, allS: seq<LatencySample>)
    requires Collected(h, o.foreign, o.self, allF, allS)
    ensures Collected(h + [o], [], [], allF, allS)
  {
    var n := h + [o];
    assert ForeignOf(n)[..|h|] == ForeignOf(h) && SelfOf(n)[..|h|] == SelfOf(h);
  }

  lemma {:induction false} CountIsLength<T>(xss: seq<seq<T>>)
    ensures CountAll(xss) == |Flatten(xss)|
  {
    if xss == [] {
    } else {
      CountIsLength(xss[..|xss| - 1]);
    }
  }

  /** The phase totals of the summary are the numbers of samples ever given. */
  lemma PhaseTotals(c: Config, h: seq<Observation>, curF: seq<LatencySample>, curS: seq<LatencySample>,
                    allF: seq<LatencySample>, allS: seq<LatencySample>)
    requires c.p.Sane() && Collected(h, curF, curS, allF, allS)
    ensures var s := SummaryOf(c.p, After(c, h), curF, curS);
            s.phaseForeign == |allF| && s.phaseSelf == |allS|
  {
    hide After, WindowOf, ResponsivenessOf, ConfidenceOf, StableAverages, StableWindowed, CurrentOf, Flatten, CountAll;
    CountedOnline(c, h);
    CountIsLength(ForeignOf(h));
    CountIsLength(SelfOf(h));
  }

  // ---- The window of the final figures ----

  /** Where the window starts: mad intervals from the end, or where stability began if that is earlier. */
  function SteadyFrom(c: Config, h: seq<Observation>): (from: int)
    requires c.p.Sane()
    ensures 1 <= from && from <= (if h == [] then 1 else |h|)
  {
    var trailing := if |h| - c.p.mad + 1 > 1 then |h| - c.p.mad + 1 else 1;
    var stable := FirstStable(c, h, LastRestart(c, h));
    if 0 < stable < trailing then stable else trailing
  }

  lemma TrailingFrom<T>(xs: seq<T>, from: int)
    requires 1 <= from <= |xs| + 1
    ensures Trailing(xs, |xs| - from + 1) == xs[from - 1..]
  {
  }

  lemma WindowFromOnline(c: Config, h: seq<Observation>)
    requires c.p.Sane()
    ensures WindowFrom(c.p, After(c, h)) == SteadyFrom(c, h)
  {
    hide After, FirstStable, LastRestart, GoodputsFrom, MeasuredFrom, LatestBound, PeakOf, Ramping, Responds;
    OnlineEqualsOffline(c, h);
  }

  /**
   The final figures are computed from exactly the samples of the intervals from WindowFrom
   to the last; only when those hold no sample at all, from the whole phase and the interval
   in progress.
   */
  lemma SummaryWindow(c: Config, h: seq<Observation>, curF: seq<LatencySample>, curS: seq<LatencySample>,
                      allF: seq<LatencySample>, allS: seq<LatencySample>)
    requires c.p.Sane() && Collected(h, curF, curS, allF, allS)
    ensures var s, from := SummaryOf(c.p, After(c, h), curF, curS), SteadyFrom(c, h);
            var f, sl := Flatten(ForeignOf(h)[from - 1..]), Flatten(SelfOf(h)[from - 1..]);
            && (s.foreign, s.self, s.windowFrom) == (if f == [] && sl == [] then (allF, allS, 1) else (f, sl, from))
            && s.rates == ResponsivenessOf(s.foreign, s.self, c.p.trimmedMeanPercent)
  {
    hide After, ResponsivenessOf, ConfidenceOf, StableAverages, StableWindowed, CurrentOf, Flatten, CountAll;
    hide WindowFrom, SteadyFrom;
    var s, from := After(c, h), SteadyFrom(c, h);
    CountedOnline(c, h);
    WindowFromOnline(c, h);
    TrailingFrom(ForeignOf(h), from);
    TrailingFrom(SelfOf(h), from);
    TrailingFrom(ForeignOf(h), 1);
    TrailingFrom(SelfOf(h), 1);
  }

  // ---- Probe spacing ----

  /** Bits of one probe, the given bytes being those of a foreign and a self probe together. */
  function ProbeBits(probeBytes: int): real {
    probeBytes as real / 2.0 * 8.0
  }

  /** Bits carried at a rate in nanoseconds, which need not be whole. */
  function Bits(rate: real, elapsed: real): real {
    rate * (elapsed / SECOND as real)
  }

  lemma BitsGrow(rate: real, a: real, b: real)
    requires rate > 0.0 && a <= b
    ensures Bits(rate, a) <= Bits(rate, b) && (a < b ==> Bits(rate, a) < Bits(rate, b))
  {
    var d := (b - a) / SECOND as real;
    assert Bits(rate, b) == Bits(rate, a) + rate * d;
    assert a < b ==> d > 0.0 && rate * d > 0.0;
  }

  lemma TimeFor(rate: real, bits: real)
    requires rate > 0.0 && bits >= 0.0
    ensures var exact := bits / rate * SECOND as real;
            exact >= 0.0 && Bits(rate, exact) == bits
  {
    DivideAtLeast(bits, 0.0, rate);
  }

  /** The rate in bits per second that probes may use. */
  function ProbeRate(share: real, bps: real): real {
    share * bps
  }

  lemma SpacingExact(probeBytes: int, share: real, bps: real)
    requires share > 0.0 && bps > 0.0 && probeBytes >= 0
    ensures var g, rate := Spacing(probeBytes, share, bps), ProbeRate(share, bps);
            rate > 0.0 && g >= 0 && Bits(rate, g as real) <= ProbeBits(probeBytes) < Bits(rate, (g + 1) as real)
  {
    hide Bits;
    var rate := ProbeRate(share, bps);
    assert rate > 0.0;
    TimeFor(rate, ProbeBits(probeBytes));
    var exact := ProbeBits(probeBytes) / rate * SECOND as real;
    var g := Spacing(probeBytes, share, bps);
    BitsGrow(rate, g as real, exact);
    BitsGrow(rate, exact, (g + 1) as real);
  }

  /**
   Probes keep to their rate and to their share of goodput (up to the nanosecond the gap is
   rounded down by), and are spaced no further apart than one of the two demands.
   */
  lemma ProbesKeepToShare(p: Params, bps: real, probeBytes: int)
    requires p.Sane() && probeBytes >= 0
    ensures var gap, rate := ProbeGapOf(p, bps, probeBytes), ProbeRate(p.probeCapacityPercent, bps);
            && gap >= SECOND / p.maxProbesPerSecond
            && (bps > 0.0 ==> ProbeBits(probeBytes) < Bits(rate, (gap + 1) as real))
            && (gap == SECOND / p.maxProbesPerSecond
                || (bps > 0.0 && Bits(rate, gap as real) <= ProbeBits(probeBytes)))
  {
    hide Spacing, ProbeBits, Bits, ProbeRate;
    if bps > 0.0 {
      SpacingExact(probeBytes, p.probeCapacityPercent, bps);
      var g, gap := Spacing(probeBytes, p.probeCapacityPercent, bps), ProbeGapOf(p, bps, probeBytes);
      BitsGrow(ProbeRate(p.probeCapacityPercent, bps), (g + 1) as real, (gap + 1) as real);
    }
  }
}
