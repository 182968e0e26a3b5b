/**
 The simulator's path (internal/linksim/linksim.go): flows that ramp towards their fair
 share of a bottleneck with a buffer and, optionally, a token bucket. One step lasts 10 ms.
 */
module Fluid {
  import opened Series
  import opened Stats

  const STEP := 10 * MILLISECOND
  const STEP_SECONDS := 0.01

  datatype Link = Link(
    capacity: real, rtt: int, queueBytes: real, perFlowCap: real, shaperBurst: real,
    sendBuffer: real, tickJitter: int, changeAt: int, changeTo: real)
  {
    predicate Valid() {
      capacity >= 0.0 && changeTo >= 0.0 && sendBuffer >= 0.0
    }

    /** Capacity in force in the step that starts after n steps. */
    function CapacityAt(n: nat): real {
      if changeAt > 0 && n * STEP >= changeAt then changeTo else capacity
    }

    predicate Shaped() {
      shaperBurst > 0.0
    }
  }

  function Min(a: real, b: real): real {
    if a < b then a else b
  }

  /** Bytes that a capacity in bits per second carries in one step. */
  function PerStep(capacity: real): real {
    capacity / 8.0 * STEP_SECONDS
  }

  // ---- Demand ----

  /** The rate of one flow, given what the flows before it already ask for. */
  function Target(link: Link, capacity: real, fair: real, offered: real, ramp: real): real {
    var ceiling := if link.perFlowCap > 0.0 && capacity > link.perFlowCap then link.perFlowCap else capacity;
    var target := Min(ramp, ceiling);
    if target > fair && offered + target > capacity then (if fair > 0.0 then fair else 0.0) else target
  }

  function FairShare(capacity: real, flows: nat): real {
    if flows > 0 then capacity / flows as real else capacity
  }

  /** rates are what the flows ask for: each in turn ramps towards its target. */
  predicate Demanded(link: Link, capacity: real, ramps: seq<real>, rates: seq<real>) {
    && |rates| == |ramps|
    && forall i :: 0 <= i < |rates| ==>
         rates[i] == Target(link, capacity, FairShare(capacity, |ramps|), Sum(rates[..i]), ramps[i])
  }

  /** Setting the rate of flow i leaves what the flows before it ask for. */
  lemma EarlierRatesKept(rates: seq<real>, i: nat, x: real)
    requires i < |rates|
    ensures var n := rates[i := x];
            (forall j :: 0 <= j <= i ==> n[..j] == rates[..j]) && Sum(n[..i + 1]) == Sum(rates[..i]) + x
  {
    var n := rates[i := x];
    assert n[..i + 1][..i] == rates[..i];
  }

  method Offer(link: Link, capacity: real, flows: seq<real>, ramps: seq<real>)
    returns (rates: seq<real>, offered: real)
    requires |flows| == |ramps|
    ensures Demanded(link, capacity, ramps, rates) && offered == Sum(rates)
  {
    var fair := capacity;
    if |flows| > 0 {
      fair := capacity / |flows| as real;
    }
    rates, offered := flows, 0.0;
    for i := 0 to |flows|
      invariant |rates| == |flows| && offered == Sum(rates[..i])
      invariant forall j :: 0 <= j < i ==> rates[j] == Target(link, capacity, fair, Sum(rates[..j]), ramps[j])
    {
      var target := capacity;
      if link.perFlowCap > 0.0 && target > link.perFlowCap {
        target := link.perFlowCap;
      }
      if ramps[i] < target {
        target := ramps[i];
      }
      if target > fair && offered + target > capacity {
        target := if fair > 0.0 then fair else 0.0;
      }
      EarlierRatesKept(rates, i, target);
      rates := rates[i := target];
      offered := offered + target;
    }
    assert rates[..|rates|] == rates;
  }

  lemma FairShareTimes(capacity: real, flows: nat)
    requires flows > 0
    ensures flows as real * FairShare(capacity, flows) == capacity
    ensures capacity >= 0.0 ==> FairShare(capacity, flows) >= 0.0
  {
    if capacity >= 0.0 {
      DivideAtLeast(capacity, 0.0, flows as real);
    }
  }

  /** No flow asks for more than its ceiling, its ramp or the capacity. */
  lemma RateBounded(link: Link, capacity: real, ramps: seq<real>, rates: seq<real>, i: nat)
    requires capacity >= 0.0 && Demanded(link, capacity, ramps, rates) && i < |rates| && ramps[i] >= 0.0
    ensures 0.0 <= rates[i] <= ramps[i] && rates[i] <= capacity
    ensures link.perFlowCap > 0.0 ==> rates[i] <= link.perFlowCap
  {
    hide FairShare;
    FairShareTimes(capacity, |ramps|);
  }

  lemma {:induction false} PrefixDemand(link: Link, capacity: real, ramps: seq<real>, rates: seq<real>, n: nat)
    requires capacity >= 0.0 && Demanded(link, capacity, ramps, rates) && n <= |rates|
    requires AllAtLeast(ramps, 0.0)
    ensures 0.0 <= Sum(rates[..n])
    ensures n >= 1 ==> Sum(rates[..n]) <= capacity + Shares(capacity, |ramps|, n - 1)
  {
    hide FairShare, Shares;
    if n == 0 {
    } else {
      PrefixDemand(link, capacity, ramps, rates, n - 1);
      RateBounded(link, capacity, ramps, rates, n - 1);
      assert rates[..n][..n - 1] == rates[..n - 1];
      FairShareTimes(capacity, |ramps|);
      SharesGrow(capacity, |ramps|, n - 1);
      if n >= 2 {
        SharesGrow(capacity, |ramps|, n - 2);
      }
    }
  }

  /** n fair shares. */
  function Shares(capacity: real, flows: nat, n: nat): real {
    n as real * FairShare(capacity, flows)
  }

  lemma SharesGrow(capacity: real, flows: nat, n: nat)
    requires flows > 0 && capacity >= 0.0
    ensures Shares(capacity, flows, n + 1) == Shares(capacity, flows, n) + FairShare(capacity, flows)
    ensures Shares(capacity, flows, n) >= 0.0
  {
    FairShareTimes(capacity, flows);
  }

  /**
   However many flows there are, together they ask for less than twice the capacity: the
   fair share binds from the moment the link is saturated.
   */
  lemma DemandBounded(link: Link, capacity: real, ramps: seq<real>, rates: seq<real>)
    requires capacity > 0.0 && Demanded(link, capacity, ramps, rates) && AllAtLeast(ramps, 0.0)
    ensures 0.0 <= Sum(rates) < 2.0 * capacity
  {
    hide Demanded, Shares;
    var n := |rates|;
    assert rates[..n] == rates && n == |ramps| by { DemandLength(link, capacity, ramps, rates); }
    PrefixDemand(link, capacity, ramps, rates, n);
    if n >= 1 {
      AllButOneShare(capacity, n);
    }
  }

  lemma DemandLength(link: Link, capacity: real, ramps: seq<real>, rates: seq<real>)
    requires Demanded(link, capacity, ramps, rates)
    ensures |rates| == |ramps|
  {
  }

  lemma AllButOneShare(capacity: real, flows: nat)
    requires capacity > 0.0 && flows > 0
    ensures Shares(capacity, flows, flows - 1) < capacity
  {
    FairShareTimes(capacity, flows);
    var share, n := FairShare(capacity, flows), flows as real;
    assert (n - 1.0) * share == n * share - share;
    PositiveShare(capacity, n);
  }

  lemma PositiveShare(capacity: real, n: real)
    requires capacity > 0.0 && n > 0.0
    ensures capacity / n > 0.0
  {
  }

  // ---- What the flows do not leave unused ----

  /** What a flow could send on a link of its own: its slow-start rate, its cap or the capacity, whichever is least. */
  function Wanted(link: Link, capacity: real, ramp: real): real {
    Min(ramp, if link.perFlowCap > 0.0 then Min(link.perFlowCap, capacity) else capacity)
  }

  function AllWanted(link: Link, capacity: real, ramps: seq<real>): (r: seq<real>)
    ensures |r| == |ramps|
  {
    seq(|ramps|, i requires 0 <= i < |ramps| => Wanted(link, capacity, ramps[i]))
  }

  lemma {:induction false} SumGrows(xs: seq<real>, n: nat)
    requires AllAtLeast(xs, 0.0) && n <= |xs|
    ensures Sum(xs[..n]) <= Sum(xs)
  {
    if n == |xs| {
      assert xs[..n] == xs;
    } else {
      SumGrows(xs[..|xs| - 1], n);
      assert xs[..|xs| - 1][..n] == xs[..n];
    }
  }

  /** While the link is not saturated, the fair share does not bind: every flow sends what it wants. */
  lemma UnsaturatedDemand(link: Link, capacity: real, ramps: seq<real>, rates: seq<real>)
    requires capacity >= 0.0 && Demanded(link, capacity, ramps, rates) && AllAtLeast(ramps, 0.0)
    requires Sum(AllWanted(link, capacity, ramps)) <= capacity
    ensures rates == AllWanted(link, capacity, ramps)
  {
    hide Demanded;
    DemandLength(link, capacity, ramps, rates);
    var wanted := AllWanted(link, capacity, ramps);
    WantsNonNegative(link, capacity, ramps);
    WantedPrefix(link, capacity, ramps, rates, wanted, |rates|);
    assert rates[..|rates|] == rates;
    assert wanted[..|rates|] == wanted;
  }

  lemma NthRate(link: Link, capacity: real, ramps: seq<real>, rates: seq<real>, i: nat)
    requires Demanded(link, capacity, ramps, rates) && i < |rates|
    ensures |rates| == |ramps|
    ensures rates[i] == Target(link, capacity, FairShare(capacity, |ramps|), Sum(rates[..i]), ramps[i])
  {
    hide Target, FairShare, Sum;
  }

  lemma SumAtLeastNext(xs: seq<real>, n: nat)
    requires AllAtLeast(xs, 0.0) && n < |xs|
    ensures Sum(xs[..n]) + xs[n] <= Sum(xs)
  {
    SumGrows(xs, n + 1);
    assert xs[..n + 1][..n] == xs[..n];
  }

  lemma WantedNonNegative(link: Link, capacity: real, ramp: real)
    requires capacity >= 0.0 && ramp >= 0.0
    ensures Wanted(link, capacity, ramp) >= 0.0
  {
  }

  lemma WantedSent(link: Link, capacity: real, fair: real, offered: real, ramp: real)
    requires offered + Wanted(link, capacity, ramp) <= capacity
    ensures Target(link, capacity, fair, offered, ramp) == Wanted(link, capacity, ramp)
  {
  }

  lemma {:induction false} WantedPrefix(link: Link, capacity: real, ramps: seq<real>, rates: seq<real>,
                                         wanted: seq<real>, n: nat)
    requires Demanded(link, capacity, ramps, rates) && n <= |rates| == |ramps|
    requires wanted == AllWanted(link, capacity, ramps) && AllAtLeast(wanted, 0.0) && Sum(wanted) <= capacity
    ensures rates[..n] == wanted[..n]
  {
    hide FairShare, Target, Wanted, Demanded, Sum, AllAtLeast, AllWanted;
    if n == 0 {
    } else {
      WantedPrefix(link, capacity, ramps, rates, wanted, n - 1);
      SumAtLeastNext(wanted, n - 1);
      NthRate(link, capacity, ramps, rates, n - 1);
      NthWanted(link, capacity, ramps, n - 1);
      WantedSent(link, capacity, FairShare(capacity, |ramps|), Sum(wanted[..n - 1]), ramps[n - 1]);
      assert rates[..n] == rates[..n - 1] + [rates[n - 1]];
      assert wanted[..n] == wanted[..n - 1] + [wanted[n - 1]];
    }
  }

  lemma NthWanted(link: Link, capacity: real, ramps: seq<real>, i: nat)
    requires i < |ramps|
    ensures AllWanted(link, capacity, ramps)[i] == Wanted(link, capacity, ramps[i])
  {
    hide Wanted;
  }

  lemma WantsNonNegative(link: Link, capacity: real, ramps: seq<real>)
    requires capacity >= 0.0 && AllAtLeast(ramps, 0.0)
    ensures AllAtLeast(AllWanted(link, capacity, ramps), 0.0)
  {
    hide Wanted;
    forall i | 0 <= i < |ramps| ensures 0.0 <= AllWanted(link, capacity, ramps)[i] {
      WantedNonNegative(link, capacity, ramps[i]);
    }
  }

  lemma {:induction false} SumAtLeastFirst(xs: seq<real>)
    requires xs != [] && AllAtLeast(xs, 0.0)
    ensures Sum(xs) >= xs[0]
  {
    if |xs| == 1 {
      assert xs[..0] == [];
    } else {
      SumAtLeastFirst(xs[..|xs| - 1]);
    }
  }

  lemma RatesNonNegative(link: Link, capacity: real, ramps: seq<real>, rates: seq<real>)
    requires capacity >= 0.0 && Demanded(link, capacity, ramps, rates) && AllAtLeast(ramps, 0.0)
    ensures AllAtLeast(rates, 0.0)
  {
    forall i | 0 <= i < |rates| ensures 0.0 <= rates[i] {
      RateBounded(link, capacity, ramps, rates, i);
    }
  }

  /** Once the oldest flow could fill the link alone, it is full, however many flows have joined since. */
  lemma OldestFills(link: Link, capacity: real, ramps: seq<real>, rates: seq<real>)
    requires capacity >= 0.0 && Demanded(link, capacity, ramps, rates) && AllAtLeast(ramps, 0.0)
    requires rates != [] && Wanted(link, capacity, ramps[0]) == capacity
    ensures Sum(rates) >= capacity
  {
    RatesNonNegative(link, capacity, ramps, rates);
    SumAtLeastFirst(rates);
    assert rates[..0] == [];
  }

  /** So it is once every flow could send its fair share. */
  lemma FairSharesFill(link: Link, capacity: real, ramps: seq<real>, rates: seq<real>)
    requires capacity >= 0.0 && Demanded(link, capacity, ramps, rates) && AllAtLeast(ramps, 0.0) && rates != []
    requires forall i :: 0 <= i < |ramps| ==> Wanted(link, capacity, ramps[i]) >= FairShare(capacity, |ramps|)
    ensures Sum(rates) >= capacity
  {
    hide FairShare, Wanted, Target;
    var fair := FairShare(capacity, |ramps|);
    forall i | 0 <= i < |rates| ensures fair <= rates[i] {
      FairShareSent(link, capacity, fair, Sum(rates[..i]), ramps[i]);
    }
    SumAtLeast(rates, fair);
    FairShareTimes(capacity, |rates|);
  }

  lemma FairShareSent(link: Link, capacity: real, fair: real, offered: real, ramp: real)
    requires Wanted(link, capacity, ramp) >= fair
    ensures Target(link, capacity, fair, offered, ramp) >= fair
  {
  }

  // ---- The bottleneck ----

  /** One step: what arrived, what went through, what the full buffer dropped, and what is left. */
  datatype Moved = Moved(arrived: real, delivered: real, dropped: real, queue: real, tokens: real)

  function Kept(link: Link, queue: real): real {
    if link.queueBytes > 0.0 && queue > link.queueBytes then link.queueBytes
    else if link.queueBytes == 0.0 then 0.0
    else queue
  }

  /** The bottleneck's rules for one step, from a queue and a token count. */
  function Pass(link: Link, capacity: real, queue: real, tokens: real, arrived: real): Moved {
    var q := queue + arrived;
    var refilled := if link.Shaped() then Min(link.shaperBurst, tokens + PerStep(capacity)) else tokens;
    var d := Min(q, if link.Shaped() then Min(refilled, PerStep(2.0 * capacity)) else PerStep(capacity));
    Moved(arrived, d, q - d - Kept(link, q - d), Kept(link, q - d), if link.Shaped() then refilled - d else tokens)
  }

  method Serve(link: Link, capacity: real, queue: real, tokens: real, arrived: real)
    returns (left: real, remaining: real, delivered: real, ghost moved: Moved)
    ensures var m := Pass(link, capacity, queue, tokens, arrived);
            left == m.queue && remaining == m.tokens && delivered == m.delivered
    ensures moved == Pass(link, capacity, queue, tokens, arrived) && moved.arrived == arrived
  {
    left, remaining := queue + arrived, tokens;
    if link.shaperBurst > 0.0 {
      remaining := Min(link.shaperBurst, remaining + capacity / 8.0 * STEP_SECONDS);
      delivered := Min(left, Min(remaining, 2.0 * capacity / 8.0 * STEP_SECONDS));
      remaining := remaining - delivered;
    } else {
      delivered := Min(left, capacity / 8.0 * STEP_SECONDS);
    }
    left := left - delivered;
    ghost var excess := left;
    if link.queueBytes > 0.0 && left > link.queueBytes {
      left := link.queueBytes;
    } else if link.queueBytes == 0.0 {
      left := 0.0;
    }
    moved := Moved(arrived, delivered, excess - left, left, remaining);
  }

  // ---- Whole runs of the bottleneck ----

  function QueueAfter(steps: seq<Moved>): real {
    if steps == [] then 0.0 else steps[|steps| - 1].queue
  }

  function TokensAfter(link: Link, steps: seq<Moved>): real {
    if steps == [] then link.shaperBurst else steps[|steps| - 1].tokens
  }

  /** Each step follows the bottleneck's rules from where the step before it ended. */
  predicate Lawful(link: Link, steps: seq<Moved>) {
    steps != [] ==>
      var before := steps[..|steps| - 1];
      && Lawful(link, before)
      && steps[|steps| - 1] == Pass(link, link.CapacityAt(|before|), QueueAfter(before), TokensAfter(link, before),
                                    steps[|steps| - 1].arrived)
      && (link.Valid() ==> steps[|steps| - 1].arrived >= 0.0)
  }

  function Arrived(steps: seq<Moved>): real {
    if steps == [] then 0.0 else Arrived(steps[..|steps| - 1]) + steps[|steps| - 1].arrived
  }

  function Delivered(steps: seq<Moved>): real {
    if steps == [] then 0.0 else Delivered(steps[..|steps| - 1]) + steps[|steps| - 1].delivered
  }

  function Lost(steps: seq<Moved>): real {
    if steps == [] then 0.0 else Lost(steps[..|steps| - 1]) + steps[|steps| - 1].dropped
  }

  /** The integral of the capacity over the first n steps, in bytes. */
  function Carried(link: Link, n: nat): real {
    if n == 0 then 0.0 else Carried(link, n - 1) + PerStep(link.CapacityAt(n - 1))
  }

  lemma {:induction false} LawfulPrefix(link: Link, steps: seq<Moved>, n: nat)
    requires Lawful(link, steps) && n <= |steps|
    ensures Lawful(link, steps[..n])
  {
    if n == |steps| {
      assert steps[..n] == steps;
    } else {
      LawfulPrefix(link, steps[..|steps| - 1], n);
      assert steps[..|steps| - 1][..n] == steps[..n];
    }
  }

  /** Every byte offered was delivered, is queued, or was dropped. */
  lemma {:induction false} Conserved(link: Link, steps: seq<Moved>)
    requires Lawful(link, steps)
    ensures Arrived(steps) == Delivered(steps) + QueueAfter(steps) + Lost(steps)
  {
    if steps == [] {
    } else {
      hide Kept, PerStep;
      Conserved(link, steps[..|steps| - 1]);
    }
  }

  /** The buffer holds what it may; tokens stay within the burst; bytes are lost only to a full buffer. */
  lemma {:induction false} Within(link: Link, steps: seq<Moved>)
    requires link.Valid() && Lawful(link, steps)
    ensures 0.0 <= QueueAfter(steps) && (link.queueBytes >= 0.0 ==> QueueAfter(steps) <= link.queueBytes)
    ensures link.Shaped() ==> 0.0 <= TokensAfter(link, steps) <= link.shaperBurst
    ensures steps != [] ==> var last := steps[|steps| - 1];
              last.delivered >= 0.0 && last.dropped >= 0.0 && (last.dropped > 0.0 ==> last.queue == link.queueBytes)
  {
    if steps == [] {
    } else {
      Within(link, steps[..|steps| - 1]);
    }
  }

  /**
   From any step on, the bottleneck delivers no more than its capacity carries, plus the
   tokens it holds at that point.
   */
  lemma {:induction false} DeliveryBounded(link: Link, steps: seq<Moved>, n: nat)
    requires Lawful(link, steps) && n <= |steps|
    ensures Delivered(steps) - Delivered(steps[..n])
            <= Carried(link, |steps|) - Carried(link, n)
               + if link.Shaped() then TokensAfter(link, steps[..n]) - TokensAfter(link, steps) else 0.0
  {
    if n == |steps| {
      assert steps[..n] == steps;
    } else {
      hide PerStep;
      DeliveryBounded(link, steps[..|steps| - 1], n);
      assert steps[..|steps| - 1][..n] == steps[..n];
    }
  }

  /** Total delivery is at most the burst plus the integral of the capacity. */
  lemma TotalDelivery(link: Link, steps: seq<Moved>)
    requires link.Valid() && Lawful(link, steps)
    ensures 0.0 <= Delivered(steps) <= Carried(link, |steps|) + if link.Shaped() then link.shaperBurst else 0.0
  {
    Within(link, steps);
    DeliveryBounded(link, steps, 0);
    DeliveryGrows(link, steps, 0);
  }

  lemma {:induction false} DeliveryGrows(link: Link, steps: seq<Moved>, n: nat)
    requires link.Valid() && Lawful(link, steps) && n <= |steps|
    ensures Delivered(steps[..n]) <= Delivered(steps)
  {
    if n == |steps| {
      assert steps[..n] == steps;
    } else {
      hide Pass;
      Within(link, steps);
      DeliveryGrows(link, steps[..|steps| - 1], n);
      assert steps[..|steps| - 1][..n] == steps[..n];
    }
  }

  /** What could go through in step k: the queue before it and what arrived. */
  function Backlog(steps: seq<Moved>, k: nat): real
    requires k < |steps|
  {
    QueueAfter(steps[..k]) + steps[k].arrived
  }

  /** The bucket holds at least what the link carries in a step. */
  predicate DeepEnough(link: Link, capacity: real) {
    link.Shaped() ==> link.shaperBurst >= PerStep(capacity)
  }

  lemma StepRules(link: Link, steps: seq<Moved>, k: nat)
    requires Lawful(link, steps) && k < |steps|
    ensures steps[k] == Pass(link, link.CapacityAt(k), QueueAfter(steps[..k]), TokensAfter(link, steps[..k]),
                             steps[k].arrived)
    ensures link.Valid() ==> steps[k].arrived >= 0.0 && QueueAfter(steps[..k]) >= 0.0
    ensures link.Valid() && link.Shaped() ==> TokensAfter(link, steps[..k]) >= 0.0
  {
    hide Pass, Link.CapacityAt;
    LawfulPrefix(link, steps, k);
    LawfulPrefix(link, steps, k + 1);
    assert steps[..k + 1][..k] == steps[..k];
    if link.Valid() {
      Within(link, steps[..k]);
    }
  }

  /**
   The bottleneck never idles: what is held back was held back by the rate in force or, with a
   bucket, by twice that rate or an empty bucket.
   */
  lemma WorkConserving(link: Link, steps: seq<Moved>, k: nat)
    requires Lawful(link, steps) && k < |steps| && steps[k].delivered < Backlog(steps, k)
    ensures var capacity := link.CapacityAt(k);
            if link.Shaped() then steps[k].delivered == PerStep(2.0 * capacity) || steps[k].tokens == 0.0
            else steps[k].delivered == PerStep(capacity)
  {
    hide Kept, PerStep;
    StepRules(link, steps, k);
  }

  /** A backlog of what the link carries in a step gets through at least that much. */
  lemma BusyStep(link: Link, steps: seq<Moved>, k: nat)
    requires link.Valid() && Lawful(link, steps) && k < |steps|
    requires Backlog(steps, k) >= PerStep(link.CapacityAt(k)) && DeepEnough(link, link.CapacityAt(k))
    ensures steps[k].delivered >= PerStep(link.CapacityAt(k))
    ensures !link.Shaped() ==> steps[k].delivered == PerStep(link.CapacityAt(k))
  {
    hide Kept;
    StepRules(link, steps, k);
  }

  predicate BusyFrom(link: Link, steps: seq<Moved>, m: nat, n: nat)
    requires n <= |steps|
  {
    forall k :: m <= k < n ==> Backlog(steps, k) >= PerStep(link.CapacityAt(k)) && DeepEnough(link, link.CapacityAt(k))
  }

  /** Over a busy span the bottleneck delivers at least what its capacity carries. */
  lemma {:induction false} BusyDelivers(link: Link, steps: seq<Moved>, m: nat, n: nat)
    requires link.Valid() && Lawful(link, steps) && m <= n <= |steps| && BusyFrom(link, steps, m, n)
    ensures Delivered(steps[..n]) - Delivered(steps[..m]) >= Carried(link, n) - Carried(link, m)
  {
    if m == n {
    } else {
      hide Lawful, PerStep, Backlog, DeepEnough;
      BusyDelivers(link, steps, m, n - 1);
      BusyStep(link, steps, n - 1);
      assert steps[..n][..n - 1] == steps[..n - 1];
    }
  }

  lemma OneMore(n: int, x: real)
    ensures (n + 1) as real * x == n as real * x + x
  {
  }

  /** The first step that starts no earlier than the change of capacity. */
  predicate FirstChanged(link: Link, k: nat) {
    link.changeAt > 0 && k * STEP >= link.changeAt && (k - 1) * STEP < link.changeAt
  }

  /** A change of capacity takes effect at its moment: up to it the first capacity is carried, then the second. */
  lemma {:induction false} ChangedCarried(link: Link, k: nat, n: nat)
    requires FirstChanged(link, k)
    ensures Carried(link, n) == (if n <= k then n as real * PerStep(link.capacity)
                                 else k as real * PerStep(link.capacity) + (n - k) as real * PerStep(link.changeTo))
  {
    if n == 0 {
    } else {
      hide PerStep;
      ChangedCarried(link, k, n - 1);
      OneMore(n - 1, PerStep(link.capacity));
      OneMore(n - 1 - k, PerStep(link.changeTo));
    }
  }

  lemma {:induction false} ConstantCarried(link: Link, m: nat, n: nat)
    requires link.changeAt <= 0 && m <= n
    ensures Carried(link, n) - Carried(link, m) == (n - m) as real * PerStep(link.capacity)
  {
    if m == n {
    } else {
      hide PerStep;
      ConstantCarried(link, m, n - 1);
      OneMore(n - 1 - m, PerStep(link.capacity));
    }
  }
}
