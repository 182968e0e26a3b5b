# A verified model of netquality

netquality runs the responsiveness test of draft-ietf-ippm-responsiveness-09 (parameters in
section 5.2, RPM in section 5.3, confidence in section 5.4.1). This project models its four
clock-free cores in Dafny and proves what they promise over whole runs.

- **Statistics** (`Series`, `Stats`, `LatencySummary`, `Trimming`, `RoundTrips`): nearest-rank
  percentiles, the trimmed mean, RPM and the latency summary, each proved against an order-free
  definition (counts of samples at or below a value); their invariance under replicated samples;
  exactly when raising a sample lowers the trimmed mean; and what an RPM figure says of the time
  its stages took.
- **The measurement engine** (`Stability`, `Engine`): `Tracker` and `Engine` are classes that
  update their fields as the source does. `Engine.Step` gives the meaning of one interval on
  values and `Engine.Engine.Interval` is proved to refine it. On top of it:
  - `Steps`: what one interval does to each part of the state;
  - `History`: the engine's whole state and every decision as functions of the observations
    alone (online equals offline). These functions read byte counts, flow counts and samples;
    none of them looks at the engine's state or at what it decided;
  - `Windows`: when a lower bound is formed and what it says, what the running figures are
    computed from, and exactly when a change is detected;
  - `Ramp`: the flow ramp under a driver that opens exactly what it is asked to, its exact flow
    count, what ends it, and how drain and hold intervals can then be told from flow and byte counts;
  - `Convergence`: the exact interval at which a steady phase stops, for every moving-average
    distance, and the exact interval at which goodputs that merely agree count as stable;
  - `Draining`: what a drain interval leaves untouched, and what it does not;
  - `Stopping`: when the engine stops, and an input on which it stops although the summary
    calls throughput unstable;
  - `Samples`: no probe sample is lost, the exact window behind the final figures, and the
    probes' share of goodput.
- **The load phase** (`LoadPhase`): the state flows and probes share, and the loop that feeds
  and obeys the engine, over arbitrary sequences of atomic events.
- **The simulator** (`Fluid`, `SimTrace`, `LinkSim`, `ClosedLoop`, `FullLink`, `LoadedLatency`):
  the fluid link, the record of a run and its rules, the loop that drives a real `Engine` object
  over the link, and the theorems that the closed loop never over-reports, that it reports the
  capacity of a full link to within a byte per interval, and that its responsiveness lies
  between that of the idle path and that of a full buffer.
- **The server's admission budget** (`Budget`, `Admissions`, `Server`, `Guard`): one atomic step
  on values; all interleavings of concurrent requests with arbitrary eviction; the mutable
  buckets and the download loop; and whole runs on those buckets, each request settling the
  very bucket it was admitted on.
- **Two concurrent protocols** (`AddrSet`, `Registry`): the compare-and-swap address set and
  the connection registry whose teardown races with late dials, as state machines whose steps
  are the atomic actions.

How it reads: a method with a loop or with updated fields is specified by a function on values
(`Step`, `Admit`, `Pass`, `Handled`, ...); what the program promises is then proved of that
function, over every input or every run. Runs are finite sequences of observations or events;
`Legal` says which events a system can see.

Idealisations, used throughout:

- `float64` is `real`, and `time.Duration` and `int64` are unbounded integers (nanoseconds,
  bytes); conversions from `float64` truncate toward zero as in the source.
- A standard deviation is compared by its square: `stddev(w) < t*v` with `v > 0` becomes
  `variance(w) < (t*v)*(t*v)`.
- Clocks do not run backwards between the steps of a run; interval lengths, byte counts, random
  draws and the slow-start curve are arbitrary inputs.
- Locks and atomic operations make a step; everything else is interleaved arbitrarily.

Where prose and code differ, the model follows the code:

- Stop does not imply `Summary.ThroughputStable`: the goodput criterion is latched and the
  summary judges it afresh. `Stopping.StopCriterion` gives the exact criterion for Stop and
  `Stopping.StopNeedNotBeStable` an input; `Stopping.SummaryAfterStop` proves that throughput is
  called stable when stability began with the last interval, and in general is called unstable
  exactly if a measured interval after the latch has ended stability.
- A drain interval "contributes to no figure and no decision" (docs/product-specs/load.md:40-45)
  holds of goodput, and such an interval opens no flow; but its probe samples join the
  responsiveness window and the phase may stop on it (internal/engine/engine.go:186-199). `Draining.DrainMayStop` is an
  input that stops on a drain interval by its own probe; `Draining.DrainInterval` says what such
  an interval changes, and that it stops the phase exactly if goodput was stable before it and
  the responsiveness figures, its own included, are stable.
- "Every connection is closed by teardown" needs a condition: a caller's `Close` that has
  forgotten its connection and not yet closed it hides it from the snapshot.
  `Registry.CloseInFlightSurvives` is such a run; `Registry.NothingSurvivesTeardown` proves
  that the survivors are exactly the connections forgotten by a caller before the first latch
  and not yet closed by one.
- The trimmed mean is not monotone in its samples (`Trimming.TrimmedMeanNotMonotone`), because
  its cut keeps ties. `Trimming.RaisingLowersExactly` says when raising a sample lowers it.

## Model

| member | source | states |
|---|---|---|
| Stats.SortedCopySorted | internal/engine/stats.go:94-98 | the sorted copy is ascending |
| Stats.SortedCopyMembers | internal/engine/stats.go:94-98 | the sorted copy keeps every sample with its multiplicity |
| Stats.OrderIrrelevant | internal/engine/stats.go:94-98 | statistics of a sorted copy do not depend on the order in which samples arrived |
| Stats.PercentileIsNearestRank | internal/engine/stats.go:100-116 | for 0 < p <= 100 the computed percentile is exactly the one sample with fewer than p percent of the samples below it and at least p percent at or below it, whatever the input order |
| Stats.PercentilePresence | internal/engine/stats.go:35-37 | for each whole percentile and sample count: ceil(p*n/100) < n exactly when 100 <= (100-p)*n |
| Stats.PercentileMonotone | internal/engine/stats.go:101-116 | percentiles of a sorted series increase with p and stay between its extremes |
| Stats.TrimmedMean | internal/engine/stats.go:142-161 | the loop with its early break computes the mean of exactly the samples at or below the percentile, zero for none |
| Stats.TrimmedMeanBetween | internal/engine/stats.go:140-161 | the trimmed mean lies between the least sample and the mean |
| Trimming.RaisingLowersExactly | internal/engine/stats.go:142-161 | raising one sample lowers the trimmed mean (before truncation) exactly if it was at or below the cut, goes past it, exceeds the trimmed mean, and one more sample lies at or below the cut than its rank needs, so that the cut stays |
| Trimming.NoFewerNotLower | internal/engine/stats.go:142-161 | as long as no fewer samples are kept, raising one never lowers the reported trimmed mean |
| Trimming.TrimmedMeanNotMonotone | internal/engine/stats.go:150-156 | an input on which raising a sample lowers the trimmed mean |
| Stats.PercentileReplicated | internal/engine/stats.go:101-116 | k copies of a sample list have the percentiles of one copy |
| Stats.TrimmedMeanReplicated | internal/engine/stats.go:142-161 | k copies of a sample list have the trimmed mean of one copy |
| Stats.Responsiveness | internal/engine/stats.go:248-275 | total, foreign and self RPM from the three trimmed means, with the TCP-only case and the missing-side cases |
| Stats.ResponsivenessReplicated | internal/engine/stats.go:248-275 | k intervals with the same samples are exactly as responsive as one |
| RoundTrips.ForeignRate | internal/engine/stats.go:250-261 | for any probes, the foreign rate times the sum of the trimmed connect, per-round-trip TLS and HTTP times is three minutes up to one nanosecond a stage, exactly when the sum divides by three; without TLS it is two minutes over two stages |
| RoundTrips.SelfRate | internal/engine/stats.go:262-264 | the self rate times the trimmed HTTP time is one minute |
| RoundTrips.TotalRate | internal/engine/stats.go:265-274 | the total is the mean of two positive sides and otherwise the sum of both, one of which is then zero |
| RoundTrips.ForeignRateInBand | internal/engine/stats.go:79-84 | with TLS counted per round trip, the foreign rate lies between those of the slowest and the fastest stages among the probes |
| RoundTrips.AgreeingProbes | internal/engine/stats.go:254-261 | probes that agree on every stage: rate times the stages' sum is exactly three minutes when it divides by three |
| RoundTrips.AgreeingPlainProbes | internal/engine/stats.go:257-261 | probes without TLS that agree: rate times connect plus HTTP is exactly two minutes when the sum is even |
| RoundTrips.SelfRateInBand | internal/engine/stats.go:262-264 | the self rate lies between those of the slowest and the fastest exchange |
| LatencySummary.MinSamplesExact | internal/engine/stats.go:35-37 | the table of minimum counts is exact: from it on, and not before, a percentile is told apart from the maximum |
| LatencySummary.MedianHalves | internal/engine/stats.go:129-138 | at most half of the samples lie below the median, at least half at or below it |
| LatencySummary.MedianMidpoint | internal/engine/stats.go:129-138 | when half of the samples end at one of them and half begin at another, the median is their midpoint |
| LatencySummary.MeanOf | internal/engine/stats.go:118-127 | the accumulating loop yields the truncated mean |
| LatencySummary.MeanBetween | internal/engine/stats.go:118-127 | the mean lies between the extremes |
| LatencySummary.JitterBound | internal/engine/stats.go:195-206 | twice the jitter is at most the range plus 2 ns, for any number of samples |
| LatencySummary.JitterFloor | internal/engine/stats.go:195-206 | any two of n samples differ by less than n times the jitter plus one nanosecond |
| LatencySummary.JitterTight | internal/engine/stats.go:195-206 | samples half at either end have a jitter of half the range |
| LatencySummary.JitterOfRange | internal/engine/stats.go:189-221 | the reported range is below the sample count times the reported jitter plus one |
| LatencySummary.StatsOf | internal/engine/stats.go:189-221 | every field is what its name says of the unsorted samples, absent percentiles are zero, present ones are ordered min <= median <= p80 <= p90 <= p95 <= p99 <= max |
| Stability.DefaultsIdempotent | internal/engine/stability.go:65-101 | applying the defaults twice changes nothing; exactly the sane parameters are left alone |
| Stability.DefaultsFieldByField | internal/engine/stability.go:65-101 | every field keeps its value exactly where it is set and in range, and is the default's elsewhere |
| Stability.VarianceOf | internal/engine/stats.go:223-238 | the two-pass loop yields the population variance |
| Stability.AveragesAppend | internal/engine/stability.go:129-142 | pushing a value appends one moving average and changes none before it |
| Stability.AverageSlides | internal/engine/stability.go:129-142 | a value enters the moving average as one more value while there are fewer than MAD, then in place of the oldest |
| Stability.PeriodicStable | internal/engine/stability.go:158-172 | goodput is judged on moving averages: a pattern of period MAD is stable from 2 MAD - 1 values on, however wide |
| Stability.PatternNotStableWindowed | internal/engine/stability.go:158-172 | a series stable by its averages and not by its values |
| Stability.Tracker.constructor | internal/engine/stability.go:117-125 | a new tracker is empty, windowed or not |
| Stability.Tracker.Push | internal/engine/stability.go:129-142 | the value joins the series and the returned average is the mean of its last MAD values |
| Stability.Tracker.Current | internal/engine/stability.go:145-150 | the latest moving average, zero before any value |
| Stability.Tracker.Stable | internal/engine/stability.go:158-172 | stable exactly when there are MAD values, the current one is positive, and the deviation of the last MAD averages (values, when windowed) is below the tolerated fraction of it |
| Stability.Tracker.Confidence | internal/engine/stability.go:186-195 | high when stable, medium from MAD values on, low before |
| Stability.ConfidenceMeans | internal/engine/stability.go:186-195 | high exactly when stable, low exactly below MAD values, for both kinds of series |
| Stability.SteadySpread | internal/engine/stability.go:158-172 | in a window that counts as stable any two values differ by less than sqrt(2n) times the tolerated fraction of its last value |
| Stability.StableInBand | internal/engine/stability.go:158-172 | a series that keeps to a positive band narrower than twice the tolerated fraction of its low end is stable exactly from MAD values on, judged on averages or on values |
| Engine.Engine.constructor | internal/engine/engine.go:109-120 | a new engine is in the initial state of its defaulted parameters, with the initial flows' credit outstanding |
| Engine.Engine.Interval | internal/engine/engine.go:132-229 | one interval takes the engine's whole state, and returns the decision, exactly as the value-level step does |
| Engine.Engine.Account | internal/engine/engine.go:135-174 | goodput, drain and hold judgements, change detection and recording |
| Engine.Engine.UpdateBound | internal/engine/engine.go:235-261 | the bound is refreshed exactly when the trailing MAD measured intervals are consecutive and agree |
| Engine.Engine.Latch | internal/engine/engine.go:176-181 | goodput stability is latched together with the interval at which it began |
| Engine.Engine.Respond | internal/engine/engine.go:186-193 | responsiveness over the last MAD intervals joins its series when positive |
| Engine.Engine.Ramp | internal/engine/engine.go:203-228 | flow doubling, the wait after a drain interval, and the end of the ramp |
| Engine.Engine.Gather | internal/engine/engine.go:255-259 | the samples of a run of intervals, in order |
| Engine.Engine.Window | internal/engine/engine.go:329-339 | the samples of the last n completed intervals, of all when there are fewer |
| Engine.Engine.ProbeGap | internal/engine/engine.go:265-277 | the gap at the current goodput estimate |
| Engine.Engine.Summarize | internal/engine/engine.go:282-326 | the summary is the value-level summary of the engine's state |
| History.Feed | internal/engine/engine.go:132-229 | feeding one observation to an engine with history h leaves it with the history extended by it |
| History.CountedOnline | internal/engine/engine.go:139-146 | interval count, last byte count and sample logs are those of the history |
| Steps.MeasuredSeries | internal/engine/engine.go:149-174 | what one interval does to the goodput series: nothing when it drains, a fresh start when it changes, an append otherwise |
| Steps.StepVerdict | internal/engine/engine.go:175-193 | the figures a decision carries are those of the state it leaves |
| History.OnlineEqualsOffline | internal/engine/engine.go:132-261 | after any observations: counters, the goodput series since the last restart and its interval numbers, the peak, the stability latch and its start, the lower bound, the RPM series, the ramp's fields and the stop flag are the stated functions of the observations, and Stop and the flows asked for follow from them |
| History.EngineIsItsHistory | internal/engine/engine.go:79-229 | the engine's whole state and every field of its decision equal values computed from the observations alone |
| Windows.MeasuredMeaning | internal/engine/engine.go:156-174 | the recorded interval numbers are exactly those of the intervals since the restart that did not drain |
| Windows.PeakIsLargest | internal/engine/engine.go:157-159 | the peak is at least every measured goodput |
| Windows.PeakIsReached | internal/engine/engine.go:157-159 | a peak that is not zero is the goodput of some measured interval |
| Windows.BoundForms | internal/engine/engine.go:235-261 | whenever the last MAD intervals were all measured since the restart and their goodputs keep to a close band, the reported bound is their least goodput, starting at the first of them |
| Windows.ThroughputSlides | internal/engine/engine.go:171-175 | each decision's throughput is the moving average, which a measured goodput enters with its share, in partial windows too |
| Windows.ResponseWindow | internal/engine/engine.go:186-193 | each decision's RPM under working conditions is that of exactly the samples of the last MAD intervals |
| Windows.ChangeExactly | internal/engine/engine.go:160-169 | tracking restarts exactly at a hold interval whose goodput is below 1 - tolerance of the moving average with MAD goodputs on record; never at a drain interval or one for which flows were opened |
| Windows.BoundQuality | internal/engine/engine.go:235-261 | any reported bound comes from MAD consecutive measured intervals after the last restart, is their minimum, at most their mean and within the tolerated distance of it, its RPM is computed from exactly those intervals' samples, and it never exceeds the peak |
| Windows.FreshBoundBelowAverage | internal/engine/engine.go:235-261 | a bound refreshed in the latest interval is at most the moving average |
| Windows.NoFalseChange | internal/engine/engine.go:160-169 | no change is detected while goodput keeps to a band no wider than the change tolerance |
| Windows.ChangeDetected | internal/engine/engine.go:160-169 | a hold interval below the tolerated share of what every one of the last MAD goodputs reached restarts goodput tracking at once |
| Windows.BandKeepsTracking | internal/engine/engine.go:160-169 | any number of such intervals leave the restart point where it was |
| Windows.ChangeTakesNewGoodput | internal/engine/engine.go:163-175 | a detected change makes the new goodput the moving average |
| Windows.ChangeCutsHistory | internal/engine/engine.go:163-182 | after a change at interval k, no later steady window, bound window or recorded interval reaches back before k |
| Ramp.DrainsFromFlows | internal/engine/engine.go:147-154 | with an obeying driver, an interval drains exactly when the credit of the flows opened for it exceeds the tolerated share of its bytes, and holds exactly when it does not drain and no flow was opened for it |
| Ramp.MeasuredNetOfCredit | internal/engine/engine.go:147-157 | without that credit a measured interval keeps at least 1 - SDT of its goodput |
| Ramp.NoConsecutiveDrains | internal/engine/engine.go:147-154 | no two consecutive intervals drain |
| Ramp.HoldsAfterRamp | internal/engine/engine.go:153-208 | every interval after the ramp is a measured hold that adds nothing, and the ramp stays over |
| Ramp.FlowsBounded | internal/engine/engine.go:203-228 | a driver that opens exactly what it is asked to never has more flows than the cap, and the k-th add implies that k-1 doublings of the initial flows stay below the cap |
| Ramp.FlowsExactly | internal/engine/engine.go:216-228 | after k adds a driven run has exactly the initial flows plus the larger of them and the increment, doubled k - 1 times, cut at the cap |
| Ramp.FlowsBetween | internal/engine/engine.go:216-228 | it never has more than k doublings of the larger of initial flows and increment, and below the cap at least the initial flows plus k increments |
| Ramp.RampEnds | internal/engine/engine.go:203-228 | if l doublings reach the cap, the ramp is over or the phase stopped within 2l+2 intervals |
| Ramp.RampGoesOn | internal/engine/engine.go:203-228 | an interval that does not stop the phase ends a running ramp exactly if it finds every allowed flow open or, being measured, gained less than the tolerance over the interval of the last add; otherwise flows are added exactly if it does not drain |
| Ramp.RampEndsForCause | internal/engine/engine.go:203-228 | behind every ramp that is over there is an interval that found every allowed flow open or gained too little |
| Ramp.RampReachesCap | internal/engine/engine.go:203-228 | while every step pays and the phase is not told to stop, a driven run has all allowed flows open within 2l+2 intervals |
| Ramp.StoppedWhenTold | internal/engine/engine.go:194-198 | a driven engine is stopped exactly when its last decision said so |
| Convergence.WindowRPMSteady | internal/engine/engine.go:187-189 | over equal intervals the windowed RPM equals that of one interval, during warm-up too |
| Convergence.ConstantStable | internal/engine/stability.go:158-172 | a constant positive series is stable exactly from MAD values on |
| Convergence.SteadyStep | internal/engine/engine.go:156-228 | one steady interval takes the ramp, both trackers and the warm-up one step on, and stops exactly at the stop interval |
| Convergence.StopsExactly | internal/engine/engine.go:156-228 | on a steady path with positive responsiveness, no send-buffer credit and a positive ramp tolerance, Stop comes at interval MAD + min(3, MAD) - 1 and at no earlier one, for every MAD |
| Convergence.LatchesInBand | internal/engine/engine.go:176-182 | goodputs that have kept to such a band since the last restart latch stability at the MAD-th measured interval since then, neither earlier nor later, and the summary agrees |
| Convergence.LatchesInPhase | internal/engine/engine.go:156-182 | when all goodputs of a phase do, within the change tolerance too, nothing restarts and stability is latched at the MAD-th measured interval of the phase |
| Convergence.StopsInBands | internal/engine/engine.go:176-199 | when goodputs and responsiveness figures both keep to such bands, Stop comes exactly once both series have MAD values |
| Draining.DrainInterval | internal/engine/engine.go:147-209 | a drain interval changes no goodput series, peak, bound or latch and adds no flow; its samples are kept and its responsiveness joins the series under working conditions; and it stops the phase exactly if goodput was stable before it and that series is stable |
| Draining.DrainMayStop | internal/engine/engine.go:186-199 | a driven input on which the engine stops at a drain interval whose own probe is the only one |
| Stopping.StopCriterion | internal/engine/engine.go:176-198 | Stop exactly when goodput was stable at some interval since the last restart and the RPM figures of the intervals under working conditions, computed from the observed samples, are stable now |
| Stopping.StabilityEnded | internal/engine/engine.go:176-181 | stability that began since the last restart and does not hold now was ended by a measured interval after it began |
| Stopping.SummaryAfterStop | internal/engine/engine.go:282-299 | after Stop the summary calls responsiveness stable with high confidence; throughput stable if stability began with the last interval; and throughput unstable exactly if a measured interval after the latched one ended stability and it has not returned |
| Stopping.StopNeedNotBeStable | internal/engine/engine.go:176-198 | an input on which the engine stops and the summary calls throughput unstable |
| Stopping.SummaryFigures | internal/engine/engine.go:282-299 | the summary's throughput is the last decision's; its bound and peak are the engine's; confidence is high exactly when stable, low exactly below MAD figures, and low for responsiveness until goodput has been stable |
| Samples.PhaseTotals | internal/engine/engine.go:317-322 | the phase totals are the numbers of samples ever given |
| Samples.SummaryWindow | internal/engine/engine.go:300-315 | the summary's samples are exactly those of the intervals from WindowFrom to the last (the trailing MAD, widened to where stability began); only when those hold none, the whole phase and the interval in progress |
| Samples.ProbesKeepToShare | internal/engine/engine.go:263-277 | probes keep to their rate and to their share of goodput, up to the nanosecond the gap is rounded down by, and are spaced no further apart than one of the two demands |
| LoadPhase.PhaseState.Stop | run.go:309-316 | only the first stop has an effect |
| LoadPhase.PhaseState.Fail | run.go:325-333 | a flow error is counted, the first one kept, and the phase stopped |
| LoadPhase.PhaseState.Count | load.go:41-54 | payload and cost are counted apart, and the cap stops the phase once the cost reaches it |
| LoadPhase.PhaseState.AddSample | run.go:341-349 | a sample joins the interval in progress, on its own side |
| LoadPhase.PhaseState.Take | run.go:352-358 | hands over, in order, every sample of either side gathered since the last call, so that no sample is handed over twice |
| LoadPhase.HandleTick | run.go:455-479 | a tick hands the interval's samples, payload and flow count to the engine, then stops the phase or opens the flows asked for |
| LoadPhase.Load | run.go:394-520 | a phase run through any sequence of events gives the result of the value-level phase, and a result exactly when the loop has been left |
| LoadPhase.SamplesConserved | run.go:341-358 | every sample added is, in order, in exactly one observation or still in progress at the end |
| LoadPhase.ResultCountsSamples | run.go:488-504 | there is a result exactly when the loop was left, and its sample totals equal the samples added, also those added after that |
| LoadPhase.LoopObeys | run.go:437-479 | the loop opens exactly what the engine asks for, reports it, stays within the flow cap, and feeds nothing after Stop |
| LoadPhase.FeedsSanely | run.go:455-465 | elapsed times are positive and the byte counts the engine sees never decrease |
| LoadPhase.ReasonIsFirst | run.go:309-333 | the reported reason is that of the first event that stopped the phase; a later stop never masks it |
| LoadPhase.BytesCounted | load.go:41-58 | both totals equal the bytes moved; the byte cap is reported only when reached, and once reached the phase has been stopped |
| LoadPhase.LeftHasReason | run.go:451-487 | the loop is only left by a stop with a reason |
| LoadPhase.FinishedMeansStopped | run.go:470-474 | a phase stopped as finished is one whose engine decided to stop |
| LoadPhase.TruncatedExactly | run.go:480-518 | the result of a phase carries the reason of the first event that stopped it, and is not truncated exactly if that event is a tick on which the engine decided to stop |
| LoadPhase.ReasonHasCause | result.go:227-232 | each reason stems from an event of its kind, before which nothing stopped the phase: a tick, the byte cap, the deadline, a cancellation or a failed flow |
| LoadPhase.TickObserved | run.go:459-465 | every tick before the loop is left makes one observation: the time since the tick before it, the payload moved before it, and the flows open |
| LoadPhase.ElapsedAddsUp | run.go:459-464 | when ticks advance, the elapsed times fed to the engine add up to the time from the start to the latest tick |
| LoadPhase.FailuresCounted | run.go:500-501 | every failed flow is counted and the first error is kept |
| LoadPhase.ResultFigures | run.go:496-512 | bytes are the cost of everything moved, flows those the engine asked for, the duration the phase's, and throughput the mean payload rate when there was no interval |
| LoadPhase.CreditByDirection | run.go:399-402 | an upload that sets no credit gets 4 MiB a flow; a download that sets none, or a phase that declines it, never drains |
| Fluid.Offer | internal/linksim/linksim.go:111-136 | the loop over the flows sets each rate to its target given the rates before it, and sums them |
| Fluid.RateBounded | internal/linksim/linksim.go:117-134 | no flow exceeds its ceiling, its slow-start rate or the capacity |
| Fluid.DemandBounded | internal/linksim/linksim.go:111-136 | however many flows there are, they ask for less than twice the capacity |
| Fluid.UnsaturatedDemand | internal/linksim/linksim.go:131-136 | while the flows together want no more than the capacity, each sends what it wants |
| Fluid.OldestFills | internal/linksim/linksim.go:116-136 | once the oldest flow could fill the link alone, demand reaches the capacity whatever flows have joined |
| Fluid.FairSharesFill | internal/linksim/linksim.go:116-136 | demand reaches the capacity once every flow could send its fair share |
| Fluid.Serve | internal/linksim/linksim.go:137-155 | one step of the shaper or limiter and of the buffer moves and drops exactly what the rules say |
| Fluid.Conserved | internal/linksim/linksim.go:137-156 | over any run, bytes offered equal bytes delivered, queued and dropped |
| Fluid.Within | internal/linksim/linksim.go:142-155 | the queue stays within the buffer, tokens within the burst, and bytes are lost only to a full buffer |
| Fluid.DeliveryBounded | internal/linksim/linksim.go:142-149 | from any step on, delivery is at most the integral of the capacity plus the tokens spent |
| Fluid.TotalDelivery | internal/linksim/linksim.go:142-149 | total delivery is at most the burst plus the integral of the capacity |
| Fluid.WorkConserving | internal/linksim/linksim.go:142-156 | what a step holds back was held back by the rate in force or, with a bucket, by twice that rate or an empty bucket |
| Fluid.BusyDelivers | internal/linksim/linksim.go:142-156 | over a span with enough to send in every step, delivery is at least what the capacity carries |
| Fluid.ChangedCarried | internal/linksim/linksim.go:105-112 | the capacity changes with the first step that starts no earlier than the change |
| LinkSim.AddFlows | internal/linksim/linksim.go:91-97 | opens as many flows as asked and allowed, and credits each one's send buffer to the counter |
| LinkSim.Move | internal/linksim/linksim.go:105-157 | one step: capacity change, demand, bottleneck, counter and clock |
| LinkSim.Probe | internal/linksim/linksim.go:158-164 | a probe goes out exactly when due, is spaced by the engine, takes the loaded round trip plus less than 2 ms, and gives one sample of either kind |
| LinkSim.Tick | internal/linksim/linksim.go:175-187 | reports the interval since the last tick and returns the engine's decision |
| LinkSim.Run | internal/linksim/linksim.go:73-198 | the whole loop ends, with elapsed time under duration plus one step; arrivals are what the flows opened by the ticks before them ask for, and its steps obey the bottleneck; ticks read the byte counter, come when due and are not missing at the end; probes go out on the engine's schedule, none is missing and no sample is lost; decisions are the engine's; counted bytes are delivered bytes plus flows times send buffer; truncation means the engine did not stop; and with a byte limit the counter is below it after every step, except the last of a run that ends for it |
| LinkSim.OvershootBounded | internal/linksim/linksim.go:155-169 | a run ends for its byte limit exactly if it counted that much, and passes it by less than one step delivers plus the send buffers of the flows just opened |
| SimTrace.ScheduledShot | internal/linksim/linksim.go:159-160 | a probe sent after the first step that ends no earlier than it is due keeps the schedule |
| SimTrace.OfferedTick | internal/linksim/linksim.go:91-97 | the flows a tick opens start at that tick, and earlier steps' demand is untouched |
| SimTrace.QueueDrains | internal/linksim/linksim.go:98-104 | beyond the round trip a probe waits for the queue to drain at the capacity, to the nanosecond |
| SimTrace.RampsShift | internal/linksim/linksim.go:121-126 | slow start depends on a flow's age alone |
| SimTrace.ScheduleKeepsToShare | internal/linksim/linksim.go:158-160 | the time between any two probes of a run keeps to the maximum rate and to the share of the moving average when the first was sent |
| ClosedLoop.NeverOverReports | internal/linksim/linksim.go:105-187 | on a constant link without shaper or send buffer, after every tick the moving average, the peak and the lower bound are at most the capacity plus one byte per interval, whatever the jitter, round trip, buffer and flow count |
| ClosedLoop.OutcomeNeverOverReports | internal/linksim/linksim.go:188-198 | the same of every average and of the summary a run returns |
| FullLink.GoodputFloor | internal/linksim/linksim.go:115-189 | an interval in which the oldest flow wants all of a constant link is measured at no less than the capacity less one byte per interval, with a bucket or without |
| FullLink.NeverUnderReports | internal/linksim/linksim.go:73-198 | after MAD measured intervals of that kind moving average and peak have reached that floor, whatever the other flows do |
| FullLink.CapacityReported | internal/linksim/linksim.go:73-198 | on a constant link without credit, moving average, peak and lower bound are then all within one byte per interval of the capacity, and the bound spans the last MAD intervals |
| FullLink.OutcomeReportsCapacity | internal/linksim/linksim.go:187-198 | the same of the figures of a run's summary |
| LoadedLatency.FiguresBetween | internal/engine/stats.go:248-275 | simulated probes whose latencies keep to a band give RPM figures between one round trip per longest and one per shortest latency |
| LoadedLatency.ResponsivenessBetween | internal/linksim/linksim.go:158-198 | on a constant link with a bounded buffer every RPM figure of a run, of each decision, beside the bound and in the summary, is zero for want of samples or between that of the idle round trip and that of a full buffer and 2 ms; the summary's is never zero |
| ClosedLoop.ArrivalsBounded | internal/linksim/linksim.go:111-140 | in every step of a run less than twice what the capacity carries arrives |
| ClosedLoop.CountedBounded | internal/linksim/linksim.go:142-156 | the bytes a run counts never exceed what the link could carry, its burst and the credit of its flows |
| Budget.LazyRefill | server/server.go:111-118 | refilling at t1 and then t2 equals refilling at t2 |
| Budget.AdmitView | server/server.go:127-159 | an admission is seen only by its own identity, whatever was swept away with it |
| Budget.SettleView | server/server.go:161-168 | a settlement charges its own identity and frees one of its slots |
| Budget.TableBounded | server/server.go:131-141 | an arrival leaves the table within its size or with nobody else in it who could be forgotten, and within its size nobody is forgotten |
| Budget.RefusedUntilExactWait | server/server.go:145-152 | absent further charges, attempts are refused for bytes exactly up to the exact wait |
| Budget.HintIsTight | server/server.go:145-152 | the advertised seconds exceed the exact wait, by at most one second |
| Budget.WaitGrows | server/server.go:145-152 | a deeper debt never waits less, and the wait never exceeds the longest duration |
| Budget.RetryAfterSuffices | server/server.go:255 | an attempt after the advertised seconds is not refused for bytes |
| Admissions.NextSound | server/server.go:127-168 | every step keeps: active equals unsettled tickets within the cap, every ticket's bucket is stored, and tokens - R*active > -C*R |
| Admissions.RunSound | server/server.go:127-168 | the same in every reachable state, for every interleaving, clock and choice of evictions |
| Admissions.TicketsAccounted | server/server.go:121-159 | no identity has more than C admitted at once, and under the key of every unsettled ticket a bucket is stored that counts at least that ticket; that it is the bucket of the admission is Guard.Serve |
| Admissions.AdmittedExactly | server/server.go:142-158 | a request is admitted exactly when its identity's balance is positive and fewer than C of its requests hold a slot; it is refused for bytes exactly when the balance is not positive |
| Admissions.OutstandingBounded | docs/product-specs/server.md:59-67 | what an identity's admitted requests may still move is at most C*R |
| Admissions.SettledOnce | server/server.go:259-264 | each admitted request holds its slot on its own ticket or was settled under it, never both, and is settled once, with the moved bytes or, on a panic, the cap of its ticket |
| Admissions.ChargesAddUp | server/server.go:161-168 | what an identity is charged over a run is the sum of the settlements made for it |
| Admissions.ChargedBounded | docs/product-specs/server.md:59-71 | over any span T of any run, bytes charged to one identity are below max*(1 + T/window) + C*R |
| Admissions.AlikeRuns | server/server.go:133-141 | two servers that forget different idle, replenished identities give every request the same verdict and wait |
| Admissions.EvictionUnobservable | server/server.go:133-141 | a server that evicts behaves as one that never does |
| Admissions.RefusalInvisible | server/server.go:142-156 | a refused request changes no later outcome |
| Server.LimitsFor | server/server.go:208-220 | defaults for unset limits; a negative budget disables admission |
| Server.ClientBudget.RefillBucket | server/server.go:115-118 | the bucket object is refilled in place |
| Server.ClientBudget.Cleanup | server/server.go:133-139 | the sweep over the map forgets exactly the idle, replenished identities, in any order |
| Server.ClientBudget.TryAdmit | server/server.go:127-159 | the table and verdict are those of the value-level admission; the bucket returned is the stored one, and no bucket with an open slot is forgotten or replaced |
| Server.ClientBudget.SettleBucket | server/server.go:161-168 | whatever bucket a ticket holds is refilled, charged and gives back a slot; the table is that of the value-level settlement for the identity it is stored under, and unchanged if it is stored under none |
| Guard.Admit | server/server.go:252-259 | an admission keeps every other request's bucket the stored one, and the new request holds the bucket now stored under its key |
| Guard.Settle | server/server.go:259-264 | the held bucket is settled without a lookup, and the table becomes that of the value-level settlement |
| Guard.Serve | server/server.go:120-168 | over any run with the source's own sweeps, the tables of bucket objects and all verdicts are those of the value-level run, and every unsettled request holds the very bucket stored under its key |
| Server.Download | server/server.go:297-316 | each write is the next chunk, made before any failure and cancellation; the bytes moved are those the connection took of them, never more than the metered size; and writing ends only by a failure, a cancellation or the end of the data, in which last case all of it was moved |
| AddrSet.Prepare | transport.go:41-50 | the scan finds the address or builds the slice to publish |
| AddrSet.NextSound | transport.go:35-55 | every atomic step keeps the invariant and leaves the list alone or appends the swapping adder's address |
| AddrSet.Linearizable | transport.go:31-62 | in every interleaving the list is the result of performing the logged calls one after another |
| AddrSet.EachCallOnce | transport.go:35-55 | the addresses each adder was called with are, in order, those logged for it and then the one under way: every call takes effect once, at a step of its own, with its own argument |
| AddrSet.LogGrows | transport.go:35-55 | what has taken effect precedes all that takes effect later, so the log respects real time |
| AddrSet.AppendOnly | transport.go:31-33 | the list only grows, by appending |
| AddrSet.FinishedIsListed | transport.go:31-55 | the non-empty address of every call that has returned is listed from then on, and the list has no duplicates |
| AddrSet.FailedSwapMeansGrowth | transport.go:51-53 | a swap fails exactly when the list grew after it was loaded |
| AddrSet.RetriesBounded | transport.go:39-54 | no call retries more often than the list has grown since it began, which is at most the number of distinct addresses |
| Registry.OwnedTransport.File | transport.go:117-144 | files the connection unless teardown is latched, and says which |
| Registry.OwnedTransport.Forget | transport.go:146-150 | removes the connection |
| Registry.OwnedTransport.Latch | transport.go:156-162 | latches teardown; the snapshot lists every filed connection once |
| Registry.RunSound | transport.go:104-177 | in every interleaving each open connection is filed with teardown not latched, or in the hands of a call that will close or file it |
| Registry.OpenExactly | transport.go:174-177 | the open connections are exactly those dialled and not yet closed by any call |
| Registry.NothingFiledAfterLatch | transport.go:117-130 | once teardown is latched nothing is filed any more |
| Registry.NothingSurvivesTeardown | transport.go:104-177 | after teardown the open connections are exactly those a caller's Close forgot before the first latch and that no caller's Close has closed; each has such a Close under way; all are closed exactly if every connection forgotten early has been closed by a caller |
| Registry.CloseInFlightSurvives | transport.go:174-177 | a run in which a handed-over connection is open after closeAll returned |

## Left out

- HTTP, TLS, tracing, dialling, proxies and certificate inspection: I/O over libraries.
- Config discovery, JSON shapes and converters: library-driven or field copying.
- Signed URLs and bearer checks: they rest on URL, base64 and HMAC libraries.
- Command-line tools, flags, printing, logging and platform clocks.
- IEEE rounding, NaN and infinity, and overflow of 64-bit integers and durations: see the
  idealisations above.
- Stage medians and the highest present percentile of a latency summary: medians of further
  columns and a cascade of comparisons.
- The connection-limiting listener: one semaphore, released once per connection.
- The upload handler: a library copy through a library limit; its cap enters `Admissions` as
  the cap of the request.
- The warnings and window lengths that a load phase derives from the summary, and the mean
  throughput it reports beside the measured one.
- The choice of a flow to probe, and the probe loop's own timing; a phase sees probes as
  samples that arrive at any time.
- Server.Download: the writer is assumed to keep its interface's contract (it takes at most
  what it is given and reports an error when it takes less).
- LoadPhase.Load: payload and cost of one transfer are counted in one step; the source adds
  them one after the other.
- LinkSim.Run: the slow-start curve is an arbitrary non-negative function of a flow's age, and
  the lateness of each tick an arbitrary number below the jitter.
- Registry.NothingSurvivesTeardown: idle connections that the HTTP library closes are closes by
  some caller, at any time.
