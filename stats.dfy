/** Sums, extremes and sign filters over lists of amounts, as pandas and
    Python's `sum`, `max` and `min` compute them for the trade summaries. */
module Stats {
  import opened Common

  function Sum(xs: seq<real>): real {
    if xs == [] then 0.0 else xs[0] + Sum(xs[1..])
  }

  function MaxOf(xs: seq<real>): real
    requires xs != []
  {
    if |xs| == 1 then xs[0] else Max(xs[0], MaxOf(xs[1..]))
  }

  function MinOf(xs: seq<real>): real
    requires xs != []
  {
    if |xs| == 1 then xs[0] else Min(xs[0], MinOf(xs[1..]))
  }

  /** The gains, the losses and the break-even amounts, each in order. */
  function Positives(xs: seq<real>): (r: seq<real>)
    ensures forall x :: x in r ==> x > 0.0
  {
    if xs == [] then [] else (if xs[0] > 0.0 then [xs[0]] else []) + Positives(xs[1..])
  }

  function Negatives(xs: seq<real>): (r: seq<real>)
    ensures forall x :: x in r ==> x < 0.0
  {
    if xs == [] then [] else (if xs[0] < 0.0 then [xs[0]] else []) + Negatives(xs[1..])
  }

  function Zeros(xs: seq<real>): (r: seq<real>)
    ensures forall x :: x in r ==> x == 0.0
  {
    if xs == [] then [] else (if xs[0] == 0.0 then [xs[0]] else []) + Zeros(xs[1..])
  }

  /** Every amount is a gain, a loss or break-even. */
  lemma {:induction false} SignsPartition(xs: seq<real>)
    ensures |Positives(xs)| + |Negatives(xs)| + |Zeros(xs)| == |xs|
  {
    if xs != [] {
      SignsPartition(xs[1..]);
    }
  }

  /** One more element no larger than `top`, added to a sum of `k` elements
      each no larger than `m <= top`, keeps the sum within `k + 1` times `top`. */
  lemma AddWithinBound(x: real, sum: real, k: real, m: real, top: real)
    requires k >= 0.0 && m <= top && x <= top && sum <= k * m
    ensures x + sum <= (k + 1.0) * top
  {
    assert k * m <= k * top by {
      assert k * (top - m) >= 0.0;
    }
  }

  /** A sum lies between its count times its smallest and its largest element. */
  lemma {:induction false} SumBounds(xs: seq<real>)
    requires xs != []
    ensures |xs| as real * MinOf(xs) <= Sum(xs) <= |xs| as real * MaxOf(xs)
  {
    if |xs| > 1 {
      var rest := xs[1..];
      SumBounds(rest);
      var k := |rest| as real;
      assert MaxOf(xs) == Max(xs[0], MaxOf(rest));
      assert MinOf(xs) == Min(xs[0], MinOf(rest));
      AddWithinBound(xs[0], Sum(rest), k, MaxOf(rest), MaxOf(xs));
      AddWithinBound(-xs[0], -Sum(rest), k, -MinOf(rest), -MinOf(xs));
      assert |xs| as real == k + 1.0;
    } else {
      assert xs[1..] == [];
    }
  }

  /** The mean lies between the smallest and the largest element. */
  lemma MeanBounds(xs: seq<real>)
    requires xs != []
    ensures MinOf(xs) <= Sum(xs) / |xs| as real <= MaxOf(xs)
  {
    var n := |xs| as real;
    SumBounds(xs);
    assert MaxOf(xs) * n == n * MaxOf(xs) && MinOf(xs) * n == n * MinOf(xs);
    RatioAtMost(Sum(xs), n, MaxOf(xs));
    RatioAtLeast(Sum(xs), n, MinOf(xs));
  }

  lemma {:induction false} SumOfGains(xs: seq<real>)
    requires xs != [] && forall x :: x in xs ==> x > 0.0
    ensures Sum(xs) > 0.0
  {
    assert xs[0] in xs;
    if |xs| > 1 {
      assert forall x :: x in xs[1..] ==> x in xs;
      SumOfGains(xs[1..]);
    } else {
      assert xs[1..] == [];
    }
  }

  lemma {:induction false} SumOfLosses(xs: seq<real>)
    requires xs != [] && forall x :: x in xs ==> x < 0.0
    ensures Sum(xs) < 0.0
  {
    assert xs[0] in xs;
    if |xs| > 1 {
      assert forall x :: x in xs[1..] ==> x in xs;
      SumOfLosses(xs[1..]);
    } else {
      assert xs[1..] == [];
    }
  }

  /** The mean size of some losses, negated, lies between the deepest loss
      and zero. */
  lemma LossMeanBounds(xs: seq<real>)
    requires xs != [] && forall x :: x in xs ==> x < 0.0
    ensures MinOf(xs) <= -(Abs(Sum(xs)) / |xs| as real) < 0.0
  {
    var n := |xs| as real;
    SumOfLosses(xs);
    MeanBounds(xs);
    NegatedRatio(Sum(xs), n);
    RatioAtLeast(Sum(xs), n, 0.0);
  }

  /** Python's `total_wins / total_losses if total_losses > 0 else inf`. */
  datatype ProfitFactor = Finite(value: real) | Infinite

  function ProfitFactorOf(xs: seq<real>): ProfitFactor {
    var totalLosses := Abs(Sum(Negatives(xs)));
    if totalLosses > 0.0 then Finite(Sum(Positives(xs)) / totalLosses) else Infinite
  }

  /** The factor is infinite exactly when nothing lost, and otherwise is a
      non-negative ratio. */
  lemma ProfitFactorInfinite(xs: seq<real>)
    ensures ProfitFactorOf(xs) == Infinite <==> Negatives(xs) == []
    ensures ProfitFactorOf(xs).Finite? ==> ProfitFactorOf(xs).value >= 0.0
  {
    if Negatives(xs) != [] {
      SumOfLosses(Negatives(xs));
    }
    if Positives(xs) != [] {
      SumOfGains(Positives(xs));
    }
  }
}
