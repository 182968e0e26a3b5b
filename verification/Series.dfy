/**
 Finite series of reals: sums, means and variances, and the few arithmetic facts
 about them that the stability criterion and the reported figures rest on.
 */
module Series {

  function Sum(xs: seq<real>): real {
    if xs == [] then 0.0 else Sum(xs[..|xs| - 1]) + xs[|xs| - 1]
  }

  function Mean(xs: seq<real>): real
    requires xs != []
  {
    Sum(xs) / |xs| as real
  }

  /** Sum of the squared distances of the members of xs from m. */
  function SquaredDistance(xs: seq<real>, m: real): real {
    if xs == [] then 0.0
    else SquaredDistance(xs[..|xs| - 1], m) + (xs[|xs| - 1] - m) * (xs[|xs| - 1] - m)
  }

  /** Population variance. */
  function Variance(xs: seq<real>): real {
    if xs == [] then 0.0 else SquaredDistance(xs, Mean(xs)) / |xs| as real
  }

  function Least(xs: seq<real>): real
    requires xs != []
  {
    if |xs| == 1 then xs[0]
    else
      var low := Least(xs[..|xs| - 1]);
      if xs[|xs| - 1] < low then xs[|xs| - 1] else low
  }

  /** The last n members of xs, or all of xs when it is shorter. */
  function Trailing<T>(xs: seq<T>, n: nat): (r: seq<T>)
    ensures |r| == if |xs| < n then |xs| else n
    ensures forall k :: 0 <= k < |r| ==> r[k] == xs[|xs| - |r| + k]
  {
    if |xs| <= n then xs else xs[|xs| - n..]
  }

  predicate AllAtMost(xs: seq<real>, b: real) {
    forall k :: 0 <= k < |xs| ==> xs[k] <= b
  }

  predicate AllAtLeast(xs: seq<real>, b: real) {
    forall k :: 0 <= k < |xs| ==> b <= xs[k]
  }

  lemma DivideAtMost(a: real, b: real, n: real)
    requires n > 0.0 && a <= b * n
    ensures a / n <= b
  {
  }

  lemma DivideAtLeast(a: real, b: real, n: real)
    requires n > 0.0 && b * n <= a
    ensures b <= a / n
  {
  }

  lemma ScaleLess(c: real, a: real, b: real)
    requires c > 0.0 && a < b
    ensures c * a < c * b
  {
  }

  lemma ScaleAtMost(c: real, a: real, b: real)
    requires c >= 0.0 && a <= b
    ensures c * a <= c * b
  {
  }

  lemma CastProduct(a: int, b: int)
    ensures (a * b) as real == a as real * b as real
  {
  }

  lemma {:induction false} SumAtMost(xs: seq<real>, b: real)
    requires AllAtMost(xs, b)
    ensures Sum(xs) <= b * |xs| as real
  {
    if xs == [] {
    } else {
      SumAtMost(xs[..|xs| - 1], b);
    }
  }

  lemma {:induction false} SumAtLeast(xs: seq<real>, b: real)
    requires AllAtLeast(xs, b)
    ensures b * |xs| as real <= Sum(xs)
  {
    if xs == [] {
    } else {
      SumAtLeast(xs[..|xs| - 1], b);
    }
  }

  lemma MeanAtMost(xs: seq<real>, b: real)
    requires xs != [] && AllAtMost(xs, b)
    ensures Mean(xs) <= b
  {
    SumAtMost(xs, b);
    DivideAtMost(Sum(xs), b, |xs| as real);
  }

  lemma MeanAtLeast(xs: seq<real>, b: real)
    requires xs != [] && AllAtLeast(xs, b)
    ensures b <= Mean(xs)
  {
    SumAtLeast(xs, b);
    DivideAtLeast(Sum(xs), b, |xs| as real);
  }

  lemma {:induction false} SumFromFirst(xs: seq<real>)
    requires xs != []
    ensures Sum(xs) == xs[0] + Sum(xs[1..])
  {
    if |xs| == 1 {
      assert xs[..0] == [] && xs[1..] == [];
    } else {
      SumFromFirst(xs[..|xs| - 1]);
      assert xs[..|xs| - 1][1..] == xs[1..][..|xs| - 2];
    }
  }

  lemma {:induction false} LeastIsLeast(xs: seq<real>)
    requires xs != []
    ensures Least(xs) in xs && AllAtLeast(xs, Least(xs))
  {
    if |xs| == 1 {
    } else {
      LeastIsLeast(xs[..|xs| - 1]);
    }
  }

  lemma ConstantMean(xs: seq<real>, v: real)
    requires xs != [] && AllAtMost(xs, v) && AllAtLeast(xs, v)
    ensures Mean(xs) == v
  {
    MeanAtMost(xs, v);
    MeanAtLeast(xs, v);
  }

  lemma {:induction false} DistanceAtLeastOne(xs: seq<real>, m: real, k: nat)
    requires k < |xs|
    ensures SquaredDistance(xs, m) >= (xs[k] - m) * (xs[k] - m)
  {
    DistanceNonNegative(xs[..|xs| - 1], m);
    if k == |xs| - 1 {
    } else {
      DistanceAtLeastOne(xs[..|xs| - 1], m, k);
      Square(xs[|xs| - 1] - m);
    }
  }

  lemma Square(x: real)
    ensures x * x >= 0.0
  {
  }

  lemma {:induction false} DistanceNonNegative(xs: seq<real>, m: real)
    ensures SquaredDistance(xs, m) >= 0.0
  {
    if xs == [] {
    } else {
      DistanceNonNegative(xs[..|xs| - 1], m);
      Square(xs[|xs| - 1] - m);
    }
  }

  /** No member lies further from the mean than the variance allows. */
  lemma MemberNearMean(xs: seq<real>, k: nat)
    requires k < |xs|
    ensures (xs[k] - Mean(xs)) * (xs[k] - Mean(xs)) <= Variance(xs) * |xs| as real
  {
    DistanceAtLeastOne(xs, Mean(xs), k);
    var d, n := SquaredDistance(xs, Mean(xs)), |xs| as real;
    assert d / n * n == d;
  }

  lemma {:induction false} DistanceAtLeastTwo(xs: seq<real>, m: real, j: nat, k: nat)
    requires j < k < |xs|
    ensures SquaredDistance(xs, m) >= (xs[j] - m) * (xs[j] - m) + (xs[k] - m) * (xs[k] - m)
  {
    if k == |xs| - 1 {
      DistanceAtLeastOne(xs[..k], m, j);
    } else {
      DistanceAtLeastTwo(xs[..|xs| - 1], m, j, k);
      Square(xs[|xs| - 1] - m);
    }
  }

  /** A bound on squared distances that grows evenly with the number of values and with their sum. */
  function Line(n: real, sum: real, q: real, slope: real, mid: real): real {
    n * q + slope * (sum - n * mid)
  }

  lemma LineStep(n: real, sum: real, x: real, q: real, slope: real, mid: real)
    ensures Line(n + 1.0, sum + x, q, slope, mid) == Line(n, sum, q, slope, mid) + q + slope * (x - mid)
    ensures Line(0.0, 0.0, q, slope, mid) == 0.0
  {
    assert (n + 1.0) * q == n * q + q;
    assert slope * (sum + x - (n + 1.0) * mid) == slope * (sum - n * mid) + slope * (x - mid);
  }

  /** At n times the mean, the line is no higher than n times its height for values in the middle. */
  lemma LineAtMean(n: real, m: real, half: real, mid: real)
    requires n >= 0.0
    ensures Line(n, n * m, half * half + (mid - m) * (mid - m), 2.0 * (mid - m), mid) <= half * half * n
  {
    var e := mid - m;
    assert n * m - n * mid == -(n * e);
    assert 2.0 * e * -(n * e) == -2.0 * (n * (e * e));
    assert n * (half * half + e * e) == n * (half * half) + n * (e * e);
    Square(e);
    ScaleAtMost(n, 0.0, e * e);
  }

  lemma DistanceOfOne(x: real, m: real, mid: real, half: real)
    requires mid - half <= x <= mid + half
    ensures (x - m) * (x - m) <= half * half + (mid - m) * (mid - m) + 2.0 * (mid - m) * (x - mid)
  {
    var d, e := x - mid, mid - m;
    assert (half - d) * (half + d) >= 0.0;
    assert (half - d) * (half + d) == half * half - d * d;
    assert (x - m) * (x - m) == (d + e) * (d + e) == d * d + 2.0 * e * d + e * e;
  }

  lemma {:induction false} DistanceBelowLine(xs: seq<real>, m: real, mid: real, half: real)
    requires AllAtLeast(xs, mid - half) && AllAtMost(xs, mid + half)
    ensures SquaredDistance(xs, m)
            <= Line(|xs| as real, Sum(xs), half * half + (mid - m) * (mid - m), 2.0 * (mid - m), mid)
  {
    hide Line;
    var q, slope := half * half + (mid - m) * (mid - m), 2.0 * (mid - m);
    if xs == [] {
      LineStep(0.0, 0.0, 0.0, q, slope, mid);
    } else {
      var rest, x := xs[..|xs| - 1], xs[|xs| - 1];
      assert mid - half <= x <= mid + half;
      DistanceBelowLine(rest, m, mid, half);
      DistanceOfOne(x, m, mid, half);
      LineStep(|rest| as real, Sum(rest), x, q, slope, mid);
    }
  }

  /** The standard deviation of values in a band is at most half its width. */
  lemma VarianceInBand(xs: seq<real>, low: real, high: real)
    requires xs != [] && AllAtLeast(xs, low) && AllAtMost(xs, high)
    ensures Variance(xs) <= ((high - low) / 2.0) * ((high - low) / 2.0)
  {
    hide Line, SquaredDistance;
    var half, mid, m, n := (high - low) / 2.0, (high + low) / 2.0, Mean(xs), |xs| as real;
    DistanceBelowLine(xs, m, mid, half);
    assert Sum(xs) == n * m;
    LineAtMean(n, m, half, mid);
    DivideAtMost(SquaredDistance(xs, m), half * half, n);
  }
}
