// The pooled mean and variance of sum_remote_detect in scripts/tasks.py, over
// the per-node statistics that scripts/remote_detect_stats.py writes.
module Pooled {
  function Sum(xs: seq<real>): real {
    if |xs| == 0 then 0.0 else xs[0] + Sum(xs[1..])
  }

  function SumSquares(xs: seq<real>, about: real): real {
    if |xs| == 0 then 0.0 else (xs[0] - about) * (xs[0] - about) + SumSquares(xs[1..], about)
  }

  function Mean(xs: seq<real>): real {
    if |xs| == 0 then 0.0 else Sum(xs) / |xs| as real
  }

  // statistics.pstdev squared; 0 for at most one sample
  function PopulationVariance(xs: seq<real>): real {
    if |xs| <= 1 then 0.0 else SumSquares(xs, Mean(xs)) / |xs| as real
  }

  // One line of detect_stats.txt.
  datatype NodeStats = NodeStats(n: nat, mean: real, std: real)

  ghost predicate Describes(s: NodeStats, xs: seq<real>) {
    s.n == |xs| && s.mean == Mean(xs) && s.std * s.std == PopulationVariance(xs)
  }

  function TotalCount(per: seq<NodeStats>): nat {
    if |per| == 0 then 0 else per[0].n + TotalCount(per[1..])
  }

  function WeightedSum(per: seq<NodeStats>): real {
    if |per| == 0 then 0.0 else per[0].n as real * per[0].mean + WeightedSum(per[1..])
  }

  function WeightedMean(per: seq<NodeStats>): real
    requires TotalCount(per) > 0
  {
    WeightedSum(per) / TotalCount(per) as real
  }

  function Contribution(s: NodeStats, mean: real): real {
    s.n as real * (s.std * s.std + (s.mean - mean) * (s.mean - mean))
  }

  function SpreadAbout(per: seq<NodeStats>, mean: real): real {
    if |per| == 0 then 0.0 else Contribution(per[0], mean) + SpreadAbout(per[1..], mean)
  }

  function WeightedVariance(per: seq<NodeStats>): real
    requires TotalCount(per) > 0
  {
    SpreadAbout(per, WeightedMean(per)) / TotalCount(per) as real
  }

  function Concat(samples: seq<seq<real>>): seq<real> {
    if |samples| == 0 then [] else samples[0] + Concat(samples[1..])
  }

  lemma {:induction false} SumConcat(a: seq<real>, b: seq<real>)
    ensures Sum(a + b) == Sum(a) + Sum(b)
  {
    if |a| == 0 {
      assert a + b == b;
    } else {
      SumConcat(a[1..], b);
      assert (a + b)[1..] == a[1..] + b;
    }
  }

  lemma {:induction false} SumSquaresConcat(a: seq<real>, b: seq<real>, about: real)
    ensures SumSquares(a + b, about) == SumSquares(a, about) + SumSquares(b, about)
  {
    if |a| == 0 {
      assert a + b == b;
    } else {
      SumSquaresConcat(a[1..], b, about);
      assert (a + b)[1..] == a[1..] + b;
    }
  }

  // Sum of k * x + c over all x.
  function AffineSum(xs: seq<real>, k: real, c: real): real {
    if |xs| == 0 then 0.0 else (k * xs[0] + c) + AffineSum(xs[1..], k, c)
  }

  // Moving the centre of a sum of squares adds an affine sum.
  lemma {:induction false} Recentre(xs: seq<real>, a: real, b: real)
    ensures SumSquares(xs, b) == SumSquares(xs, a) + AffineSum(xs, 2.0 * (a - b), b * b - a * a)
  {
    if |xs| > 0 {
      Recentre(xs[1..], a, b);
      RecentreOne(xs[0], a, b);
    }
  }

  lemma {:induction false} RecentreOne(x: real, a: real, b: real)
    ensures (x - b) * (x - b) == (x - a) * (x - a) + (2.0 * (a - b) * x + (b * b - a * a))
  {
  }

  lemma {:induction false} AffineSumTotal(xs: seq<real>, n: real, k: real, c: real)
    requires n == |xs| as real
    ensures AffineSum(xs, k, c) == k * Sum(xs) + n * c
  {
    if |xs| > 0 {
      AffineSumTotal(xs[1..], n - 1.0, k, c);
      Distribute(k, xs[0], Sum(xs[1..]));
    }
  }

  lemma {:induction false} Distribute(n: real, v: real, d: real)
    ensures n * (v + d) == n * v + n * d
  {
  }

  lemma {:induction false} MeanTimesCount(xs: seq<real>)
    ensures |xs| as real * Mean(xs) == Sum(xs)
  {
  }

  lemma {:induction false} TimesQuotient(q: real, n: real)
    requires n != 0.0
    ensures n * (q / n) == q
  {
  }

  lemma {:induction false} SingleSpread(xs: seq<real>)
    requires |xs| == 1
    ensures SumSquares(xs, Mean(xs)) == 0.0
  {
    assert Sum(xs) == xs[0];
    assert Mean(xs) == xs[0];
  }

  lemma {:induction false} VarianceTimesCount(xs: seq<real>)
    ensures |xs| as real * PopulationVariance(xs) == SumSquares(xs, Mean(xs))
  {
    if |xs| == 1 {
      SingleSpread(xs);
    } else if |xs| > 1 {
      TimesQuotient(SumSquares(xs, Mean(xs)), |xs| as real);
    }
  }

  // The same without division.
  ghost predicate Summarises(s: NodeStats, xs: seq<real>) {
    && s.n == |xs|
    && s.n as real * s.mean == Sum(xs)
    && s.n as real * (s.std * s.std) == SumSquares(xs, s.mean)
  }

  lemma {:induction false} DescribesSummarises(s: NodeStats, xs: seq<real>)
    requires Describes(s, xs)
    ensures Summarises(s, xs)
  {
    MeanTimesCount(xs);
    VarianceTimesCount(xs);
  }

  // About the mean, the affine sum is n times the squared shift.
  lemma {:induction false} ShiftFromMean(n: real, m: real, b: real, k: real, c: real, sum: real, affine: real,
                                         shift: real)
    requires sum == n * m && k == 2.0 * (m - b) && c == b * b - m * m
    requires affine == k * sum + n * c && shift == n * ((m - b) * (m - b))
    ensures affine == shift
  {
    calc {
      k * sum + n * c;
      n * (k * m) + n * c;
      n * (k * m + c);
      { assert k * m + c == (m - b) * (m - b); }
      n * ((m - b) * (m - b));
    }
  }

  lemma {:induction false} RecentreMean(xs: seq<real>, n: real, m: real, b: real, k: real, c: real, shift: real)
    requires n == |xs| as real && n * m == Sum(xs)
    requires k == 2.0 * (m - b) && c == b * b - m * m && shift == n * ((m - b) * (m - b))
    ensures SumSquares(xs, b) == SumSquares(xs, m) + shift
  {
    assert AffineSum(xs, k, c) == shift by {
      AffineSumTotal(xs, n, k, c);
      ShiftFromMean(n, m, b, k, c, Sum(xs), AffineSum(xs, k, c), shift);
    }
    Recentre(xs, m, b);
  }

  lemma {:induction false} ContributionSplits(s: NodeStats, about: real)
    ensures Contribution(s, about)
            == s.n as real * (s.std * s.std) + s.n as real * ((s.mean - about) * (s.mean - about))
  {
    Distribute(s.n as real, s.std * s.std, (s.mean - about) * (s.mean - about));
  }

  // A node's contribution is its samples' squared distance from any centre.
  lemma {:induction false} NodeSpread(s: NodeStats, xs: seq<real>, about: real)
    requires Summarises(s, xs)
    ensures Contribution(s, about) == SumSquares(xs, about)
  {
    var n, m := s.n as real, s.mean;
    var shift := n * ((m - about) * (m - about));
    assert Contribution(s, about) == SumSquares(xs, m) + shift by {
      ContributionSplits(s, about);
    }
    assert SumSquares(xs, about) == SumSquares(xs, m) + shift by {
      RecentreMean(xs, n, m, about, 2.0 * (m - about), about * about - m * m, shift);
    }
  }

  lemma {:induction false} PooledCount(per: seq<NodeStats>, samples: seq<seq<real>>)
    requires |per| == |samples| && forall k :: 0 <= k < |per| ==> Summarises(per[k], samples[k])
    ensures TotalCount(per) == |Concat(samples)|
    ensures WeightedSum(per) == Sum(Concat(samples))
    decreases |per|
  {
    if |per| > 0 {
      PooledCount(per[1..], samples[1..]);
      assert Summarises(per[0], samples[0]);
      SumConcat(samples[0], Concat(samples[1..]));
    }
  }

  lemma {:induction false} PooledSpread(per: seq<NodeStats>, samples: seq<seq<real>>, about: real)
    requires |per| == |samples|
    requires forall k :: 0 <= k < |per| ==> Contribution(per[k], about) == SumSquares(samples[k], about)
    ensures SpreadAbout(per, about) == SumSquares(Concat(samples), about)
    decreases |per|
  {
    if |per| > 0 {
      PooledSpread(per[1..], samples[1..], about);
      SumSquaresConcat(samples[0], Concat(samples[1..]), about);
    }
  }

  lemma {:induction false} PooledSpreadAbout(per: seq<NodeStats>, samples: seq<seq<real>>, about: real)
    requires |per| == |samples| && forall k :: 0 <= k < |per| ==> Describes(per[k], samples[k])
    ensures SpreadAbout(per, about) == SumSquares(Concat(samples), about)
  {
    forall k | 0 <= k < |per| ensures Contribution(per[k], about) == SumSquares(samples[k], about) {
      DescribesSummarises(per[k], samples[k]);
      NodeSpread(per[k], samples[k], about);
    }
    PooledSpread(per, samples, about);
  }

  lemma {:induction false} PooledTotals(per: seq<NodeStats>, samples: seq<seq<real>>)
    requires |per| == |samples| && forall k :: 0 <= k < |per| ==> Describes(per[k], samples[k])
    ensures TotalCount(per) == |Concat(samples)|
    ensures WeightedSum(per) == Sum(Concat(samples))
  {
    forall k | 0 <= k < |per| ensures Summarises(per[k], samples[k]) {
      DescribesSummarises(per[k], samples[k]);
    }
    PooledCount(per, samples);
  }

  // The weighted mean and variance computed from per-node counts, means and
  // deviations are those of all samples taken together, for any number of
  // nodes, some of which may have no samples.
  lemma {:induction false} PooledIsExact(per: seq<NodeStats>, samples: seq<seq<real>>)
    requires |per| == |samples| && forall k :: 0 <= k < |per| ==> Describes(per[k], samples[k])
    requires TotalCount(per) > 0
    ensures WeightedMean(per) == Mean(Concat(samples))
    ensures WeightedVariance(per) == PopulationVariance(Concat(samples))
  {
    var all := Concat(samples);
    PooledTotals(per, samples);
    PooledSpreadAbout(per, samples, WeightedMean(per));
    VarianceIsQuotient(all);
  }

  lemma {:induction false} VarianceIsQuotient(xs: seq<real>)
    requires |xs| > 0
    ensures PopulationVariance(xs) == SumSquares(xs, Mean(xs)) / |xs| as real
  {
    VarianceTimesCount(xs);
  }
}
