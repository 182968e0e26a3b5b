/**
 What the responsiveness figures mean (internal/engine/stats.go): round trips per minute of the
 stages that took place. A rate times the time of its stages is as many minutes as there are
 stages, up to the rounding of one nanosecond per stage.
 */
module RoundTrips {
  import opened Series
  import opened Stats
  import LatencySummary

  const MINUTE := 60 * SECOND

  lemma RPMTimes(rtt: int)
    requires rtt > 0
    ensures RPM(rtt) > 0.0 && RPM(rtt) * rtt as real == MINUTE as real
  {
    var t := rtt as real / MILLISECOND as real;
    assert 60000.0 / t * t == 60000.0;
    DivideAtLeast(60000.0, 0.0, t);
    assert 60000.0 / t != 0.0;
  }

  lemma RPMOfNothing(rtt: int)
    requires rtt <= 0
    ensures RPM(rtt) == 0.0
  {
  }

  /** rate is that of a round trip that takes the given time, spread over so many stages. */
  predicate PerMinute(rate: real, time: int, stages: nat) {
    && (stages * MINUTE) as real <= rate * time as real
    && rate * time as real <= (stages * MINUTE) as real + (stages - 1) as real * rate
  }

  lemma RateOfStages(sum: int, stages: nat)
    requires stages >= 1 && sum >= stages
    ensures RPM(Quotient(sum, stages)) > 0.0 && PerMinute(RPM(Quotient(sum, stages)), sum, stages)
    ensures sum % stages == 0 ==> RPM(Quotient(sum, stages)) * sum as real == (stages * MINUTE) as real
  {
    var rtt, rest := sum / stages, sum % stages;
    WholeTrips(sum, stages);
    RPMTimes(rtt);
    RateTimes(RPM(rtt), rtt, stages, rest);
  }

  lemma WholeTrips(sum: int, stages: nat)
    requires stages >= 1 && sum >= stages
    ensures sum / stages >= 1 && sum == stages * (sum / stages) + sum % stages && Quotient(sum, stages) == sum / stages
  {
  }

  lemma RateTimes(rate: real, rtt: int, stages: nat, rest: nat)
    requires rate > 0.0 && rate * rtt as real == MINUTE as real && rest < stages
    ensures PerMinute(rate, stages * rtt + rest, stages)
    ensures rest == 0 ==> rate * (stages * rtt + rest) as real == (stages * MINUTE) as real
  {
    var s, r, e := stages as real, rtt as real, rest as real;
    CastProduct(stages, rtt);
    CastProduct(stages, MINUTE);
    assert rate * (s * r + e) == s * (rate * r) + rate * e;
    ScaleAtMost(rate, 0.0, e);
    ScaleAtMost(rate, e, s - 1.0);
  }

  // ---- All sample sets ----

  /** The trimmed means the figures are made of. */
  function Connect(foreign: seq<LatencySample>, tmp: real): int {
    TrimmedMeanOf(DurationsOf(foreign, CONNECT), tmp)
  }

  function Handshake(foreign: seq<LatencySample>, tmp: real): int {
    TrimmedMeanOf(DurationsOf(foreign, TLS), tmp)
  }

  function Exchange(samples: seq<LatencySample>, tmp: real): int {
    TrimmedMeanOf(DurationsOf(samples, HTTP), tmp)
  }

  /** Three round trips to connect, shake hands and exchange; two where there is no TLS. */
  lemma ForeignRate(foreign: seq<LatencySample>, self: seq<LatencySample>, tmp: real)
    requires foreign != []
    ensures var rate := ResponsivenessOf(foreign, self, tmp).foreign;
            var c, t, h := Connect(foreign, tmp), Handshake(foreign, tmp), Exchange(foreign, tmp);
            if t > 0 then
              c + t + h >= 3 ==> rate > 0.0 && PerMinute(rate, c + t + h, 3)
                                 && ((c + t + h) % 3 == 0 ==> rate * (c + t + h) as real == (3 * MINUTE) as real)
            else
              c + h >= 2 ==> rate > 0.0 && PerMinute(rate, c + h, 2)
                             && ((c + h) % 2 == 0 ==> rate * (c + h) as real == (2 * MINUTE) as real)
  {
    hide TrimmedMeanOf, RPM, PerMinute, Quotient;
    var c, t, h := Connect(foreign, tmp), Handshake(foreign, tmp), Exchange(foreign, tmp);
    if t > 0 {
      if c + t + h >= 3 { RateOfStages(c + t + h, 3); }
    } else if c + h >= 2 {
      RateOfStages(c + h, 2);
    }
  }

  /** One round trip on a loaded connection. */
  lemma SelfRate(foreign: seq<LatencySample>, self: seq<LatencySample>, tmp: real)
    requires self != [] && Exchange(self, tmp) > 0
    ensures var rate := ResponsivenessOf(foreign, self, tmp).self;
            rate > 0.0 && rate * Exchange(self, tmp) as real == MINUTE as real
  {
    hide TrimmedMeanOf, RPM;
    RPMTimes(Exchange(self, tmp));
  }

  lemma RPMNonNegative(rtt: int)
    ensures RPM(rtt) >= 0.0
  {
    if rtt > 0 {
      RPMTimes(rtt);
    }
  }

  /** The total is the mean of the two sides; where only one of them is known, it is that one. */
  lemma TotalRate(foreign: seq<LatencySample>, self: seq<LatencySample>, tmp: real)
    ensures var r := ResponsivenessOf(foreign, self, tmp);
            && r.foreign >= 0.0 && r.self >= 0.0
            && (if r.foreign > 0.0 && r.self > 0.0 then 2.0 * r.total == r.foreign + r.self
                else r.total == r.foreign + r.self)
            && (foreign == [] ==> r.foreign == 0.0) && (self == [] ==> r.self == 0.0)
  {
    hide TrimmedMeanOf, RPM;
    RPMNonNegative(ForeignRTT(Connect(foreign, tmp), Handshake(foreign, tmp), Exchange(foreign, tmp)));
    RPMNonNegative(Exchange(self, tmp));
  }

  // ---- Probes whose stages keep to bands ----

  /** From the fastest to the slowest time of each stage; the handshake is counted per round trip. */
  datatype Stages = Stages(connect: int, tls: int, http: int) {
    function Sum(): int {
      connect + tls + http
    }
  }

  predicate InStages(s: LatencySample, fast: Stages, slow: Stages) {
    && fast.connect <= s.connect <= slow.connect
    && s.tlsRTTs >= 1 && fast.tls * s.tlsRTTs <= s.tls <= slow.tls * s.tlsRTTs
    && fast.http <= s.http <= slow.http
  }

  predicate AllWithin(foreign: seq<LatencySample>, fast: Stages, slow: Stages) {
    forall i :: 0 <= i < |foreign| ==> InStages(foreign[i], fast, slow)
  }

  lemma TrimmedInBand(d: seq<int>, tmp: real, low: int, high: int)
    requires d != [] && 0.0 < tmp <= 100.0 && forall k :: 0 <= k < |d| ==> low <= d[k] <= high
    ensures low <= TrimmedMeanOf(d, tmp) <= high
  {
    hide TrimmedMeanOf, MeanDuration;
    TrimmedMeanBetween(d, tmp, low);
    LatencySummary.MeanBetween(d, low, high);
  }

  lemma HandshakePerTrip(tls: int, trips: int, low: int, high: int)
    requires trips >= 1 && low * trips <= tls <= high * trips && low >= 0
    ensures low <= Quotient(tls, trips) <= high
  {
    var q := tls / trips;
    assert low * trips >= 0;
    assert tls == q * trips + tls % trips;
    if q < low {
      OneMoreTrip(q, low, trips);
    }
    if q > high {
      OneMoreTrip(high, q, trips);
    }
  }

  lemma OneMoreTrip(a: int, b: int, n: nat)
    requires a < b
    ensures a * n + n <= b * n
  {
    assert (b - a - 1) * n >= 0;
  }

  lemma StagesInBand(foreign: seq<LatencySample>, tmp: real, fast: Stages, slow: Stages)
    requires foreign != [] && 0.0 < tmp <= 100.0 && AllWithin(foreign, fast, slow) && fast.tls >= 0
    ensures fast.connect <= Connect(foreign, tmp) <= slow.connect
    ensures fast.tls <= Handshake(foreign, tmp) <= slow.tls
    ensures fast.http <= Exchange(foreign, tmp) <= slow.http
  {
    hide TrimmedMeanOf, Quotient;
    forall k | 0 <= k < |foreign|
      ensures InStages(foreign[k], fast, slow) && fast.tls <= TLSPerRTT(foreign[k]) <= slow.tls
    {
      HandshakePerTrip(foreign[k].tls, foreign[k].tlsRTTs, fast.tls, slow.tls);
    }
    TrimmedInBand(DurationsOf(foreign, CONNECT), tmp, fast.connect, slow.connect);
    TrimmedInBand(DurationsOf(foreign, TLS), tmp, fast.tls, slow.tls);
    TrimmedInBand(DurationsOf(foreign, HTTP), tmp, fast.http, slow.http);
  }

  /**
   The foreign rate lies between that of the slowest and that of the fastest stages, whatever
   their order among the probes and whatever is trimmed.
   */
  lemma ForeignRateInBand(foreign: seq<LatencySample>, self: seq<LatencySample>, tmp: real, fast: Stages, slow: Stages)
    requires foreign != [] && 0.0 < tmp <= 100.0 && AllWithin(foreign, fast, slow)
    requires fast.connect >= 0 && fast.tls >= 1 && fast.http >= 0 && fast.Sum() >= 3
    ensures var rate := ResponsivenessOf(foreign, self, tmp).foreign;
            && rate > 0.0
            && rate * slow.Sum() as real >= (3 * MINUTE) as real
            && rate * fast.Sum() as real <= (3 * MINUTE) as real + 2.0 * rate
  {
    hide TrimmedMeanOf, AllWithin, ResponsivenessOf, Connect, Handshake, Exchange, PerMinute;
    StagesInBand(foreign, tmp, fast, slow);
    ForeignRate(foreign, self, tmp);
    PerMinuteBetween(ResponsivenessOf(foreign, self, tmp).foreign, fast.Sum(),
                     Connect(foreign, tmp) + Handshake(foreign, tmp) + Exchange(foreign, tmp), slow.Sum());
  }

  lemma PerMinuteBetween(rate: real, fast: int, sum: int, slow: int)
    requires rate > 0.0 && fast <= sum <= slow && PerMinute(rate, sum, 3)
    ensures rate * slow as real >= (3 * MINUTE) as real
    ensures rate * fast as real <= (3 * MINUTE) as real + 2.0 * rate
  {
    ScaleAtMost(rate, sum as real, slow as real);
    ScaleAtMost(rate, fast as real, sum as real);
  }

  /** Probes that agree on the time of every stage: three stages take three minutes' round trips. */
  lemma AgreeingProbes(foreign: seq<LatencySample>, self: seq<LatencySample>, tmp: real, st: Stages)
    requires foreign != [] && 0.0 < tmp <= 100.0 && AllWithin(foreign, st, st)
    requires st.connect >= 0 && st.tls >= 1 && st.http >= 0 && st.Sum() % 3 == 0 && st.Sum() > 0
    ensures ResponsivenessOf(foreign, self, tmp).foreign * st.Sum() as real == (3 * MINUTE) as real
  {
    hide TrimmedMeanOf, AllWithin, ResponsivenessOf, Connect, Handshake, Exchange, PerMinute;
    StagesInBand(foreign, tmp, st, st);
    ForeignRate(foreign, self, tmp);
  }

  predicate WithoutTLS(s: LatencySample, connect: int, http: int) {
    s.connect == connect && (s.tlsRTTs <= 0 || s.tls == 0) && s.http == http
  }

  /** The same without TLS: two stages take two minutes' round trips. */
  lemma AgreeingPlainProbes(foreign: seq<LatencySample>, self: seq<LatencySample>, tmp: real, connect: int, http: int)
    requires foreign != [] && 0.0 < tmp <= 100.0 && connect + http > 0 && (connect + http) % 2 == 0
    requires forall i :: 0 <= i < |foreign| ==> WithoutTLS(foreign[i], connect, http)
    ensures ResponsivenessOf(foreign, self, tmp).foreign * (connect + http) as real == (2 * MINUTE) as real
  {
    hide TrimmedMeanOf, ResponsivenessOf, PerMinute;
    TrimmedInBand(DurationsOf(foreign, CONNECT), tmp, connect, connect);
    TrimmedInBand(DurationsOf(foreign, TLS), tmp, 0, 0);
    TrimmedInBand(DurationsOf(foreign, HTTP), tmp, http, http);
    ForeignRate(foreign, self, tmp);
  }

  /** Self probes that agree on their exchange, and in general those that keep to a band. */
  lemma SelfRateInBand(foreign: seq<LatencySample>, self: seq<LatencySample>, tmp: real, fast: int, slow: int)
    requires self != [] && 0.0 < tmp <= 100.0 && fast > 0
    requires forall i :: 0 <= i < |self| ==> fast <= self[i].http <= slow
    ensures var rate := ResponsivenessOf(foreign, self, tmp).self;
            rate * fast as real <= MINUTE as real <= rate * slow as real
  {
    hide TrimmedMeanOf, ResponsivenessOf;
    TrimmedInBand(DurationsOf(self, HTTP), tmp, fast, slow);
    SelfRate(foreign, self, tmp);
    var rate, h := ResponsivenessOf(foreign, self, tmp).self, Exchange(self, tmp);
    ScaleAtMost(rate, fast as real, h as real);
    ScaleAtMost(rate, h as real, slow as real);
  }
}
