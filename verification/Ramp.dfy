/**
 The flow ramp over whole runs: with a driver that opens exactly the flows it is asked to,
 the flow count stays within its cap, doubles at every step, and the ramp ends in time.
 */
module Ramp {
  import opened Series
  import opened Stats
  import opened Engine
  import opened Steps
  import opened History

  /** The flows open once the decision on the last interval of h has been carried out. */
  function OpenFlows(c: Config, h: seq<Observation>): int
    requires c.p.Sane()
  {
    if h == [] then c.InitialFlows() else h[|h| - 1].flows + Decided(c, h).addFlows
  }

  /** The driver reports the flows it opened as told, and stops feeding the engine once told to stop. */
  predicate Driven(c: Config, h: seq<Observation>)
    requires c.p.Sane()
  {
    h != [] ==>
      && Driven(c, Past(h))
      && h[|h| - 1].flows == OpenFlows(c, Past(h))
      && (Past(h) != [] ==> !Decided(c, Past(h)).stop)
  }

  /** How many decisions opened flows. */
  function Adds(c: Config, h: seq<Observation>): nat
    requires c.p.Sane()
  {
    if h == [] then 0 else Adds(c, Past(h)) + if Decided(c, h).addFlows != 0 then 1 else 0
  }

  /** x doubled k times. */
  function Doubled(x: int, k: nat): int {
    if k == 0 then x else 2 * Doubled(x, k - 1)
  }

  lemma {:induction false} DoubledMonotone(x: int, j: nat, k: nat)
    requires j <= k && x >= 0
    ensures 0 <= Doubled(x, j) <= Doubled(x, k)
  {
    if j < k {
      DoubledMonotone(x, j, k - 1);
    } else if j > 0 {
      DoubledMonotone(x, j - 1, k - 1);
    }
  }

  /** A driven engine has stopped exactly when its last decision said so. */
  lemma {:induction false} StoppedWhenTold(c: Config, h: seq<Observation>)
    requires c.p.Sane() && Driven(c, h)
    ensures After(c, h).stopped <==> h != [] && Decided(c, h).stop
  {
    if h == [] {
    } else {
      hide Step, WellFormed;
      StoppedWhenTold(c, Past(h));
      StepStops(c, After(c, Past(h)), h[|h| - 1]);
    }
  }

  /** Flows opened for interval i, counting from none. */
  function OpenedFor(h: seq<Observation>, i: int): int
    requires 1 <= i <= |h|
  {
    h[i - 1].flows - (if i == 1 then 0 else h[i - 2].flows)
  }

  lemma OpenedAsAdded(c: Config, h: seq<Observation>)
    requires c.p.Sane() && h != [] && Driven(c, h)
    ensures OpenedFor(h, |h|) == Added(c, Past(h))
  {
    hide Decided, Added, Online;
    if |h| > 1 {
      OnlineEqualsOffline(c, Past(h));
    }
    NothingAdded(c);
  }

  lemma NothingAdded(c: Config)
    requires c.p.Sane()
    ensures Added(c, []) == c.InitialFlows()
  {
  }

  /**
   With a driver that opens what it is asked to, drain and hold intervals can be told from the
   flow and byte counts alone: an interval drains exactly when the credit of the flows opened
   for it exceeds the tolerated share of its bytes, and is a hold exactly when it does not
   drain and no flow was opened for it.
   */
  lemma DrainsFromFlows(c: Config, h: seq<Observation>)
    requires c.p.Sane() && h != [] && Driven(c, h)
    ensures var credit := OpenedFor(h, |h|) * c.p.sendBufferBytes;
            Decided(c, h).drain <==> credit > 0 && c.p.stdDevTolerance * BytesAt(h, |h|) as real < credit as real
    ensures Decided(c, h).hold <==> !Decided(c, h).drain && OpenedFor(h, |h|) == 0
  {
    hide Decided, After, Added, Online, OpenedFor, Driven, BytesAt;
    OpenedAsAdded(c, h);
    OnlineEqualsOffline(c, Past(h));
    RampOnline(c, Past(h));
    GoodputOnline(c, h);
    DrainOnline(c, h);
  }

  lemma RampOnline(c: Config, h: seq<Observation>)
    requires c.p.Sane() && Online(c, h)
    ensures Ramping(c, After(c, h), h)
  {
    hide Counted, Tracks, Judged, Responds, Ramping;
  }

  /** Without the credit it was given, a measured interval has at least the remaining share of its goodput. */
  lemma MeasuredNetOfCredit(c: Config, h: seq<Observation>)
    requires c.p.Sane() && h != [] && Driven(c, h) && !Decided(c, h).drain && BytesAt(h, |h|) >= 0
    ensures var bytes, elapsed := BytesAt(h, |h|), Elapsed(c.p, h[|h| - 1]);
            Rate(bytes - OpenedFor(h, |h|) * c.p.sendBufferBytes, elapsed)
            >= (1.0 - c.p.stdDevTolerance) * GoodputAt(c, h, |h|)
  {
    hide Decided, Rate, OpenedFor, BytesAt, Elapsed, Driven;
    DrainsFromFlows(c, h);
    RateNet(BytesAt(h, |h|), OpenedFor(h, |h|) * c.p.sendBufferBytes, Elapsed(c.p, h[|h| - 1]), c.p.stdDevTolerance);
  }

  lemma RateNet(bytes: int, credit: int, elapsed: int, tolerance: real)
    requires elapsed > 0 && bytes >= 0 && tolerance > 0.0
    requires credit <= 0 || credit as real <= tolerance * bytes as real
    ensures Rate(bytes - credit, elapsed) >= (1.0 - tolerance) * Rate(bytes, elapsed)
  {
    var b, t := bytes as real, elapsed as real / SECOND as real;
    assert tolerance * b >= 0.0;
    assert credit as real <= tolerance * b;
    assert (1.0 - tolerance) * b == b - tolerance * b;
    var r := Rate(bytes, elapsed);
    assert r * t == b * 8.0;
    assert ((1.0 - tolerance) * r) * t == (1.0 - tolerance) * b * 8.0;
    DivideAtLeast((bytes - credit) as real * 8.0, (1.0 - tolerance) * r, t);
  }

  /** Credit is outstanding only for flows just added (or, at first, the initial ones). */
  lemma CreditFollowsAdd(c: Config, h: seq<Observation>)
    requires c.p.Sane() && h != []
    ensures Decided(c, h).addFlows == 0 ==> After(c, h).addedInto == 0 && After(c, h).drainCredit == 0
    ensures Decided(c, h).drain ==> Decided(c, h).addFlows == 0
  {
    hide Step, WellFormed;
    StepRamp(c, After(c, Past(h)), h[|h| - 1]);
  }

  /** No two consecutive intervals drain. */
  lemma NoConsecutiveDrains(c: Config, h: seq<Observation>)
    requires c.p.Sane() && |h| >= 2
    ensures !(Decided(c, Past(h)).drain && Decided(c, h).drain)
  {
    hide Step, After, WellFormed;
    StepJudges(c, After(c, Past(h)), h[|h| - 1]);
    CreditFollowsAdd(c, Past(h));
  }

  /** Once the ramp is over, nothing has been added into the next interval and no credit is outstanding. */
  lemma {:induction false} DoneIsQuiet(c: Config, h: seq<Observation>)
    requires c.p.Sane() && After(c, h).rampDone
    ensures After(c, h).addedInto == 0 && After(c, h).drainCredit == 0
  {
    hide Step, WellFormed, NoGain;
    StepRamp(c, After(c, Past(h)), h[|h| - 1]);
  }

  /** Every interval after the ramp is a measured hold that opens no flow, and the ramp stays over. */
  lemma HoldsAfterRamp(c: Config, h: seq<Observation>)
    requires c.p.Sane() && h != [] && After(c, Past(h)).rampDone
    ensures var d := Decided(c, h);
            d.hold && !d.drain && d.addFlows == 0 && After(c, h).rampDone
  {
    hide Step, WellFormed, NoGain;
    DoneIsQuiet(c, Past(h));
    StepJudges(c, After(c, Past(h)), h[|h| - 1]);
    StepRamp(c, After(c, Past(h)), h[|h| - 1]);
  }

  lemma StepSizeDoubles(c: Config, flows: int)
    requires c.p.Sane() && 1 <= flows < c.maxFlows
    ensures 1 <= StepSize(c, flows) && flows + StepSize(c, flows) <= c.maxFlows
    ensures flows + StepSize(c, flows) == c.maxFlows || flows + StepSize(c, flows) >= 2 * flows
  {
  }

  /**
   What every step of a driven run keeps: the flow count stays within its cap and has at
   least doubled with each add, the last of which started below the cap; and while the ramp
   runs, at most one interval in two drains.
   */
  ghost predicate RampInvariant(c: Config, h: seq<Observation>)
    requires c.p.Sane()
  {
    var s, a, flows := After(c, h), Adds(c, h), OpenFlows(c, h);
    && c.InitialFlows() <= flows <= c.maxFlows
    && (flows == c.maxFlows || Doubled(c.InitialFlows(), a) <= flows)
    && (a >= 1 ==> Doubled(c.InitialFlows(), a - 1) < c.maxFlows)
    && (!s.rampDone && (h == [] || !Decided(c, h).stop) ==> |h| + (if s.drainCredit > 0 then 1 else 0) <= 2 * a + 1)
  }

  lemma RampStep(c: Config, h: seq<Observation>)
    requires c.p.Sane() && c.maxFlows >= 1 && h != [] && Driven(c, h)
    requires RampInvariant(c, Past(h))
    ensures RampInvariant(c, h)
  {
    hide Step, WellFormed, NoGain, StepSize, Goodput, Drains, Holds;
    var s, o := After(c, Past(h)), h[|h| - 1];
    var a := Adds(c, Past(h));
    StepRamp(c, s, o);
    StepJudges(c, s, o);
    DrainNeedsCredit(c.p, s, o);
    if o.flows < c.maxFlows {
      StepSizeDoubles(c, o.flows);
    }
    if Decided(c, h).addFlows != 0 {
      assert Adds(c, h) == a + 1 && Adds(c, h) - 1 == a;
      assert Doubled(c.InitialFlows(), a + 1) == 2 * Doubled(c.InitialFlows(), a);
    } else {
      assert Adds(c, h) == a;
    }
  }

  lemma {:induction false} RampHolds(c: Config, h: seq<Observation>)
    requires c.p.Sane() && c.maxFlows >= 1 && Driven(c, h)
    ensures RampInvariant(c, h)
  {
    hide Step, Decided;
    if h == [] {
    } else {
      hide RampInvariant;
      RampHolds(c, Past(h));
      RampStep(c, h);
    }
  }

  /** Flows never exceed the cap, and the k-th add implies that k - 1 doublings stayed below it. */
  lemma FlowsBounded(c: Config, h: seq<Observation>)
    requires c.p.Sane() && c.maxFlows >= 1 && Driven(c, h)
    ensures 1 <= OpenFlows(c, h) <= c.maxFlows
    ensures Adds(c, h) >= 1 ==> Doubled(c.InitialFlows(), Adds(c, h) - 1) < c.maxFlows
  {
    hide Decided, After, Adds;
    RampHolds(c, h);
  }

  /** A driven engine never asks for more flows than may still be opened. */
  lemma OpensAsTold(c: Config, h: seq<Observation>)
    requires c.p.Sane() && c.maxFlows >= 1 && Driven(c, h) && h != []
    ensures 0 <= Decided(c, h).addFlows <= c.maxFlows - h[|h| - 1].flows
    ensures Decided(c, h).stop ==> Decided(c, h).addFlows == 0
  {
    hide Decided, After, Adds;
    FlowsBounded(c, h);
    FlowsBounded(c, Past(h));
    AddNonNegative(c, h);
  }

  lemma AddNonNegative(c: Config, h: seq<Observation>)
    requires c.p.Sane() && h != [] && h[|h| - 1].flows >= 1 && h[|h| - 1].flows <= c.maxFlows
    ensures Decided(c, h).addFlows >= 0
    ensures Decided(c, h).stop ==> Decided(c, h).addFlows == 0
  {
    hide Step, After, WellFormed, NoGain, Goodput;
    StepRamp(c, After(c, Past(h)), h[|h| - 1]);
  }

  /**
   Flows after k adds that nothing limited: the first add opens as many as the larger of the
   initial flows and the increment, and every add after it doubles.
   */
  function Unlimited(initial: int, increment: int, k: nat): int {
    if k == 0 then initial else Doubled(initial + if initial < increment then increment else initial, k - 1)
  }

  lemma UnlimitedGrows(initial: int, increment: int, k: nat)
    requires initial >= 1 && increment >= 1
    ensures var f := Unlimited(initial, increment, k);
            Unlimited(initial, increment, k + 1) == f + (if f < increment then increment else f) && f >= 1
  {
    if k == 0 {
    } else {
      DoubledMonotone(initial + (if initial < increment then increment else initial), 0, k - 1);
    }
  }

  lemma StepSizeExactly(c: Config, flows: int)
    requires c.p.Sane() && 1 <= flows < c.maxFlows
    ensures var next := flows + if flows < c.p.flowIncrement then c.p.flowIncrement else flows;
            flows + StepSize(c, flows) == if next > c.maxFlows then c.maxFlows else next
  {
  }

  /** The flow count of a driven run is that of its unlimited doublings, cut at the cap. */
  predicate AsDoubled(c: Config, h: seq<Observation>)
    requires c.p.Sane()
  {
    var f := Unlimited(c.InitialFlows(), c.p.flowIncrement, Adds(c, h));
    OpenFlows(c, h) == if f > c.maxFlows then c.maxFlows else f
  }

  lemma {:induction false} FlowsExactly(c: Config, h: seq<Observation>)
    requires c.p.Sane() && c.maxFlows >= 1 && Driven(c, h)
    ensures AsDoubled(c, h)
  {
    hide Decided, After, Unlimited, StepSize;
    if h == [] {
      assert Unlimited(c.InitialFlows(), c.p.flowIncrement, 0) == c.InitialFlows() by { NoAddsYet(c); }
    } else {
      FlowsExactly(c, Past(h));
      FlowsBounded(c, Past(h));
      AddsStepSize(c, h);
      UnlimitedGrows(c.InitialFlows(), c.p.flowIncrement, Adds(c, Past(h)));
      if Decided(c, h).addFlows != 0 {
        StepSizeExactly(c, h[|h| - 1].flows);
      }
    }
  }

  lemma NoAddsYet(c: Config)
    requires c.p.Sane()
    ensures Unlimited(c.InitialFlows(), c.p.flowIncrement, 0) == c.InitialFlows()
  {
  }

  lemma AddsStepSize(c: Config, h: seq<Observation>)
    requires c.p.Sane() && h != []
    ensures var flows, add := h[|h| - 1].flows, Decided(c, h).addFlows;
            add != 0 ==> flows < c.maxFlows && add == StepSize(c, flows)
  {
    hide Step, After, WellFormed, NoGain, Goodput, StepSize;
    StepRamp(c, After(c, Past(h)), h[|h| - 1]);
  }

  /**
   Unless the cap is reached, a driven run has opened the initial flows and at least the
   increment with each add; and it has never more than doubled the larger of the two.
   */
  lemma FlowsBetween(c: Config, h: seq<Observation>)
    requires c.p.Sane() && c.maxFlows >= 1 && Driven(c, h)
    ensures var initial, increment, a := c.p.initialFlows, c.p.flowIncrement, Adds(c, h);
            && OpenFlows(c, h) <= c.maxFlows
            && OpenFlows(c, h) <= Doubled(if initial < increment then increment else initial, a)
            && (OpenFlows(c, h) == c.maxFlows || OpenFlows(c, h) >= initial + increment * a)
  {
    hide OpenFlows, Adds, Driven, Unlimited, Doubled;
    FlowsExactly(c, h);
    UnlimitedBetween(c.p.initialFlows, c.p.flowIncrement, Adds(c, h));
    if c.p.initialFlows > c.maxFlows {
      UnlimitedBetween(c.maxFlows, c.p.flowIncrement, Adds(c, h));
      UnlimitedAtLeast(c.maxFlows, c.p.flowIncrement, Adds(c, h));
      DoubledMonotone(c.p.initialFlows, 0, Adds(c, h));
      DoubledMonotone(c.p.flowIncrement, 0, Adds(c, h));
      DoubledOnce(c.p.initialFlows);
      DoubledOnce(c.p.flowIncrement);
    }
  }

  lemma DoubledOnce(x: int)
    ensures Doubled(x, 0) == x
  {
  }

  lemma UnlimitedAtLeast(initial: int, increment: int, k: nat)
    requires initial >= 1 && increment >= 1
    ensures Unlimited(initial, increment, k) >= initial
  {
    UnlimitedBetween(initial, increment, k);
    assert increment * k >= 0;
  }

  lemma {:induction false} UnlimitedBetween(initial: int, increment: int, k: nat)
    requires initial >= 1 && increment >= 1
    ensures initial + increment * k <= Unlimited(initial, increment, k)
            <= Doubled(if initial < increment then increment else initial, k)
  {
    if k == 0 {
    } else {
      UnlimitedBetween(initial, increment, k - 1);
      UnlimitedGrows(initial, increment, k - 1);
      DoubledMonotone(if initial < increment then increment else initial, 0, k - 1);
      assert increment * k == increment * (k - 1) + increment;
    }
  }

  lemma DrivenMore(c: Config, h: seq<Observation>, o: Observation)
    requires c.p.Sane() && Driven(c, h) && (h != [] ==> !Decided(c, h).stop) && o.flows == OpenFlows(c, h)
    ensures Driven(c, h + [o]) && OpenFlows(c, h + [o]) == o.flows + Decided(c, h + [o]).addFlows
  {
    hide Decided;
    assert Past(h + [o]) == h;
  }

  /** A driven engine never has fewer flows than before. */
  lemma {:induction false} FlowsGrow(c: Config, h: seq<Observation>, i: nat)
    requires c.p.Sane() && c.maxFlows >= 1 && Driven(c, h) && i <= |h|
    ensures OpenFlows(c, h[..i]) <= OpenFlows(c, h)
  {
    hide Decided;
    if i == |h| {
      assert h[..i] == h;
    } else {
      assert Past(h)[..i] == h[..i];
      FlowsGrow(c, Past(h), i);
      OpensAsTold(c, h);
    }
  }

  /**
   Ramp termination: if l doublings reach the cap, then after 2l + 2 intervals the ramp is
   over or the phase has been told to stop.
   */
  lemma RampEnds(c: Config, h: seq<Observation>, l: nat)
    requires c.p.Sane() && c.maxFlows >= 1 && Driven(c, h)
    requires Doubled(c.InitialFlows(), l) >= c.maxFlows
    requires |h| >= 2 * l + 2
    ensures After(c, h).rampDone || Decided(c, h).stop
  {
    hide Decided, After, Adds, OpenFlows, Doubled;
    RampHolds(c, h);
    var a := Adds(c, h);
    if a > l {
      DoubledMonotone(c.InitialFlows(), l, a - 1);
    }
  }

  // ---- What ends the ramp ----

  /** Interval i was measured and brought less than the asked-for gain over the last interval that added flows. */
  predicate Unpaid(c: Config, h: seq<Observation>, i: int)
    requires c.p.Sane() && 1 <= i <= |h|
  {
    && !Drained(c, h[..i])
    && var last := LastAdd(c, h[..i - 1]);
    && last != 0 && GoodputAt(c, h, last) > 0.0 && c.p.rampGainTolerance >= 0.0
    && GoodputAt(c, h, i) < (1.0 + c.p.rampGainTolerance) * GoodputAt(c, h, last)
  }

  lemma GainCompared(tolerance: real, before: real, g: real)
    requires before > 0.0
    ensures (g - before) / before < tolerance <==> g < (1.0 + tolerance) * before
  {
    var r := (g - before) / before;
    assert r * before == g - before;
    if r < tolerance {
      ScaleLess(before, r, tolerance);
    } else {
      ScaleAtMost(before, tolerance, r);
    }
  }

  lemma UnpaidMeans(c: Config, h: seq<Observation>)
    requires c.p.Sane() && h != []
    ensures Unpaid(c, h, |h|) <==>
              && !Drained(c, h) && LastAdd(c, Past(h)) != 0
              && NoGain(c.p.rampGainTolerance, GoodputAt(c, h, LastAdd(c, Past(h))), GoodputAt(c, h, |h|))
  {
    hide Drained, LastAdd, GoodputAt;
    assert h[..|h|] == h;
    var last := LastAdd(c, Past(h));
    if last != 0 && GoodputAt(c, h, last) > 0.0 {
      GainCompared(c.p.rampGainTolerance, GoodputAt(c, h, last), GoodputAt(c, h, |h|));
    }
  }

  /**
   While the ramp runs, an interval that does not stop the phase ends it exactly if it finds
   every allowed flow open or the last step did not pay; and otherwise opens flows exactly if
   it does not drain.
   */
  lemma RampGoesOn(c: Config, h: seq<Observation>)
    requires c.p.Sane() && h != [] && !After(c, Past(h)).rampDone && !Decided(c, h).stop
    ensures After(c, h).rampDone <==> h[|h| - 1].flows >= c.maxFlows || Unpaid(c, h, |h|)
    ensures Decided(c, h).addFlows > 0 <==> !After(c, h).rampDone && !Decided(c, h).drain
  {
    hide After, Decided, Drained, LastAdd, GoodputAt, Stops, Unpaid, NoGain, Added, Online, RampOver;
    OnlineEqualsOffline(c, h);
    OnlineEqualsOffline(c, Past(h));
    RampOnline(c, h);
    RampOnline(c, Past(h));
    CreditOnline(c, h);
    CreditOnline(c, Past(h));
    GoodputOnline(c, h);
    DrainOnline(c, h);
    UnpaidMeans(c, h);
    RampOverStep(c, h);
  }

  lemma RampOverStep(c: Config, h: seq<Observation>)
    requires c.p.Sane() && h != [] && !RampOver(c, Past(h)) && !Stops(c, h)
    ensures RampOver(c, h) <==>
              || h[|h| - 1].flows >= c.maxFlows
              || (&& !Drained(c, h) && LastAdd(c, Past(h)) != 0
                  && NoGain(c.p.rampGainTolerance, GoodputAt(c, h, LastAdd(c, Past(h))), GoodputAt(c, h, |h|)))
    ensures Added(c, h) > 0 <==> !RampOver(c, h) && !Drained(c, h)
  {
    hide Drained, LastAdd, GoodputAt, Stops, NoGain, StepSize;
    if h[|h| - 1].flows < c.maxFlows {
      StepAdds(c, h[|h| - 1].flows);
    }
  }

  /** A ramp that is over was ended by some interval: it found every flow open, or the last step had not paid. */
  lemma {:induction false} RampEndsForCause(c: Config, h: seq<Observation>) returns (i: int)
    requires c.p.Sane() && After(c, h).rampDone
    ensures 1 <= i <= |h| && (h[i - 1].flows >= c.maxFlows || Unpaid(c, h, i))
  {
    hide Step, Unpaid, Decided;
    if After(c, Past(h)).rampDone {
      i := RampEndsForCause(c, Past(h));
      UnpaidLater(c, h, i);
    } else {
      i := |h|;
      if Decided(c, h).stop {
        StopKeepsRamp(c, h);
      }
      RampGoesOn(c, h);
    }
  }

  lemma StopKeepsRamp(c: Config, h: seq<Observation>)
    requires c.p.Sane() && h != [] && Decided(c, h).stop
    ensures After(c, h).rampDone == After(c, Past(h)).rampDone
  {
    hide Step, WellFormed, NoGain;
    StepRamp(c, After(c, Past(h)), h[|h| - 1]);
  }

  lemma UnpaidLater(c: Config, h: seq<Observation>, i: int)
    requires c.p.Sane() && h != [] && 1 <= i <= |Past(h)|
    ensures Unpaid(c, h, i) == Unpaid(c, Past(h), i)
  {
    hide Drained, LastAdd, Rate, Elapsed;
    assert Past(h)[..i] == h[..i] && Past(h)[..i - 1] == h[..i - 1];
  }

  /**
   Full use of the link: as long as every step of the ramp pays and the phase is not told to
   stop, a driven run has all its flows open after 2l + 2 intervals, l doublings being enough.
   */
  lemma RampReachesCap(c: Config, h: seq<Observation>, l: nat)
    requires c.p.Sane() && c.maxFlows >= 1 && Driven(c, h) && |h| >= 2 * l + 2
    requires Doubled(c.InitialFlows(), l) >= c.maxFlows && !Decided(c, h).stop
    requires forall i :: 1 <= i <= |h| ==> !Unpaid(c, h, i)
    ensures OpenFlows(c, h) == c.maxFlows
  {
    hide Decided, After, Unpaid, Doubled, Adds;
    RampEnds(c, h, l);
    var i := RampEndsForCause(c, h);
    DrivenBefore(c, h, i);
    FlowsGrow(c, h, i - 1);
    FlowsBounded(c, h);
  }

  lemma {:induction false} DrivenBefore(c: Config, h: seq<Observation>, i: int)
    requires c.p.Sane() && Driven(c, h) && 1 <= i <= |h|
    ensures h[i - 1].flows == OpenFlows(c, h[..i - 1])
  {
    hide Decided;
    if i == |h| {
    } else {
      assert Past(h)[..i - 1] == h[..i - 1];
      DrivenBefore(c, Past(h), i);
    }
  }
}
