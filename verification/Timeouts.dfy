// The RTT window of lib/tcp_stat_manager.cpp and the ranked election timeout of
// start_election_timeout in src/node.cpp, over exact reals, in milliseconds.
module Timeouts {
  import opened Types

  const MAX_SAMPLES: nat := 1000

  const WORD: nat := 0x1_0000_0000

  // uint32_t
  type Word = x: nat | x < WORD

  function AddWord(a: Word, b: Word): Word { if a + b < WORD then a + b else a + b - WORD }

  function Laps(k: nat): nat { k * WORD }

  // w is what is left of the total in 32 bits.
  ghost predicate IsWrapped(w: Word, total: nat) {
    exists k: nat :: total == w + Laps(k)
  }

  lemma {:induction false} AddWrapped(a: Word, total: nat, b: Word)
    requires IsWrapped(a, total)
    ensures IsWrapped(AddWord(a, b), total + b)
  {
    var k: nat :| total == a + Laps(k);
    assert total + b == AddWord(a, b) + Laps(if a + b < WORD then k else k + 1);
  }

  // ---- the sliding window ----

  datatype Sample = Sample(rtt: real, rttVar: real, retransmissions: Word, now: int)

  datatype Stats = Stats(rtt: seq<real>, rttVar: seq<real>, retransmissions: Word, count: Word, lastUpdated: int)

  const NO_STATS: Stats := Stats([], [], 0, 0, 0)

  function Push(window: seq<real>, sample: real): seq<real> {
    (if |window| >= MAX_SAMPLES then window[1..] else window) + [sample]
  }

  // An absent connection is the empty statistics; its first sample leaves
  // lastUpdated alone, because the code sets it after the copy is stored.
  function Aggregate(s: Stats, x: Sample): Stats {
    Stats(Push(s.rtt, x.rtt), Push(s.rttVar, x.rttVar), AddWord(s.retransmissions, x.retransmissions),
          AddWord(s.count, 1), if s.rtt == [] then s.lastUpdated else x.now)
  }

  class StatManager {
    var connectionStats: map<(string, string), Stats>

    ghost predicate Valid()
      reads this
    {
      forall k :: k in connectionStats ==> 0 < |connectionStats[k].rtt| == |connectionStats[k].rttVar|
    }

    ghost function Lookup(key: (string, string)): Stats
      reads this
    {
      if key in connectionStats then connectionStats[key] else NO_STATS
    }

    constructor ()
      ensures Valid() && connectionStats == map[]
    {
      connectionStats := map[];
    }

    method AggregateTcpStats(src: string, dst: string, x: Sample)
      requires Valid()
      modifies this
      ensures Valid()
      ensures connectionStats == old(connectionStats)[(src, dst) := Aggregate(old(Lookup((src, dst))), x)]
    {
      var key := (src, dst);
      if key !in connectionStats {
        assert Push([], x.rtt) == [x.rtt] && Push([], x.rttVar) == [x.rttVar];
        connectionStats := connectionStats[key := Stats([x.rtt], [x.rttVar], x.retransmissions, 1, 0)];
      } else {
        var stats := connectionStats[key];
        if |stats.rtt| >= MAX_SAMPLES {
          stats := stats.(rtt := stats.rtt[1..], rttVar := stats.rttVar[1..]);
        }
        stats := stats.(rtt := stats.rtt + [x.rtt], rttVar := stats.rttVar + [x.rttVar]);
        stats := stats.(retransmissions := AddWord(stats.retransmissions, x.retransmissions),
                        count := AddWord(stats.count, 1), lastUpdated := x.now);
        connectionStats := connectionStats[key := stats];
      }
    }
  }

  function AggregateAll(samples: seq<Sample>): (s: Stats)
    ensures |s.rtt| == |s.rttVar|
  {
    if |samples| == 0 then NO_STATS
    else Aggregate(AggregateAll(samples[..|samples| - 1]), samples[|samples| - 1])
  }

  function WindowSize(samples: seq<Sample>): nat {
    if |samples| <= 1000 then |samples| else 1000
  }

  // After any number of samples the two windows hold the most recent ones, at
  // most 1000 of them, in order and paired.
  lemma {:induction false} WindowIsRecent(samples: seq<Sample>)
    ensures var s, w := AggregateAll(samples), WindowSize(samples);
            && |s.rtt| == |s.rttVar| == w
            && forall k :: 0 <= k < w ==>
                 s.rtt[k] == samples[|samples| - w + k].rtt && s.rttVar[k] == samples[|samples| - w + k].rttVar
  {
    if |samples| > 0 {
      WindowIsRecent(samples[..|samples| - 1]);
    }
  }

  function TotalRetransmissions(samples: seq<Sample>): nat {
    if |samples| == 0 then 0
    else TotalRetransmissions(samples[..|samples| - 1]) + samples[|samples| - 1].retransmissions
  }

  // The counters are the numbers of samples and of retransmissions modulo 2^32,
  // and the time is the last sample's unless there was only one.
  lemma {:induction false} CountersAreTotals(samples: seq<Sample>)
    ensures var s := AggregateAll(samples);
            && IsWrapped(s.count, |samples|)
            && IsWrapped(s.retransmissions, TotalRetransmissions(samples))
            && s.lastUpdated == if |samples| <= 1 then 0 else samples[|samples| - 1].now
  {
    if |samples| > 0 {
      var before := samples[..|samples| - 1];
      CountersAreTotals(before);
      WindowIsRecent(before);
      AddWrapped(AggregateAll(before).count, |before|, 1);
      AddWrapped(AggregateAll(before).retransmissions, TotalRetransmissions(before),
                 samples[|samples| - 1].retransmissions);
    } else {
      assert 0 == 0 + Laps(0);
    }
  }

  // ---- estimates ----

  function Sum(xs: seq<real>): real {
    if |xs| == 0 then 0.0 else Sum(xs[..|xs| - 1]) + xs[|xs| - 1]
  }

  function Mean(xs: seq<real>): real {
    if |xs| == 0 then 0.0 else Sum(xs) / |xs| as real
  }

  const MAX_RTO: real := 800.0

  function JacobsonEst(s: Stats): real {
    if |s.rtt| == 0 then 0.0
    else
      var rto := Mean(s.rtt) / 2.0 + 4.0 * Mean(s.rttVar);
      if rto <= MAX_RTO then rto else MAX_RTO
  }

  ghost predicate NonNegative(xs: seq<real>) { forall k :: 0 <= k < |xs| ==> xs[k] >= 0.0 }

  lemma {:induction false} MeanNonNegative(xs: seq<real>)
    requires NonNegative(xs)
    ensures Sum(xs) >= 0.0 && Mean(xs) >= 0.0
  {
    if |xs| > 0 {
      MeanNonNegative(xs[..|xs| - 1]);
    }
  }

  // ---- ranks ----

  type Scores = map<string, real>

  // penalty_scores_sorted: the map's pairs, ascending by score.
  ghost predicate SortedScores(scores: Scores, sorted: seq<(string, real)>) {
    && (forall k :: 0 <= k < |sorted| ==> sorted[k].0 in scores && scores[sorted[k].0] == sorted[k].1)
    && (forall id :: id in scores ==> exists k :: 0 <= k < |sorted| && sorted[k].0 == id)
    && (forall j, k :: 0 <= j < k < |sorted| ==> sorted[j].0 != sorted[k].0 && sorted[j].1 <= sorted[k].1)
  }

  ghost predicate TieFree(scores: Scores) {
    forall a, b :: a in scores && b in scores && a != b ==> scores[a] != scores[b]
  }

  function Below(scores: Scores, me: string): set<string>
    requires me in scores
  {
    set id | id in scores && scores[id] < scores[me]
  }

  function AtMost(scores: Scores, me: string): set<string>
    requires me in scores
  {
    set id | id in scores && scores[id] <= scores[me]
  }

  // The last position of one's own id; the code leaves the rank uninitialised
  // when there is none.
  function Rank(sorted: seq<(string, real)>, me: string): (r: Option<nat>)
    ensures r.Some? ==> r.value < |sorted| && sorted[r.value].0 == me
    ensures r.None? ==> forall k :: 0 <= k < |sorted| ==> sorted[k].0 != me
  {
    if |sorted| == 0 then None
    else if sorted[|sorted| - 1].0 == me then Some(|sorted| - 1)
    else Rank(sorted[..|sorted| - 1], me)
  }

  // The loop over the sorted pairs that looks for one's own id.
  method FindRank(sorted: seq<(string, real)>, me: string) returns (rank: Option<nat>)
    ensures rank == Rank(sorted, me)
  {
    rank := None;
    var i := 0;
    while i < |sorted|
      invariant 0 <= i <= |sorted|
      invariant rank == Rank(sorted[..i], me)
    {
      if sorted[i].0 == me {
        rank := Some(i);
      }
      i := i + 1;
      assert sorted[..i][..i - 1] == sorted[..i - 1];
    }
    assert sorted[..i] == sorted;
  }

  // The first k ids.
  function Ids(sorted: seq<(string, real)>, k: nat): set<string>
    requires k <= |sorted|
  {
    if k == 0 then {} else Ids(sorted, k - 1) + {sorted[k - 1].0}
  }

  lemma {:induction false} IdIn(sorted: seq<(string, real)>, k: nat, id: string)
    requires k <= |sorted|
    ensures id in Ids(sorted, k) <==> exists j :: 0 <= j < k && sorted[j].0 == id
  {
    if k > 0 {
      IdIn(sorted, k - 1, id);
    }
  }

  lemma {:induction false} IdsBefore(sorted: seq<(string, real)>, k: nat)
    requires k <= |sorted|
    requires forall i, j :: 0 <= i < j < |sorted| ==> sorted[i].0 != sorted[j].0
    ensures |Ids(sorted, k)| == k
  {
    if k > 0 {
      IdsBefore(sorted, k - 1);
      IdIn(sorted, k - 1, sorted[k - 1].0);
    }
  }

  lemma {:induction false} RankAtLeast(scores: Scores, sorted: seq<(string, real)>, me: string, rank: nat)
    requires SortedScores(scores, sorted) && me in scores && rank < |sorted| && sorted[rank].0 == me
    ensures |Below(scores, me)| <= rank
  {
    IdsBefore(sorted, rank);
    forall id | id in Below(scores, me) ensures id in Ids(sorted, rank) {
      IdIn(sorted, rank, id);
      var k :| 0 <= k < |sorted| && sorted[k].0 == id;
      assert k < rank;
    }
    SubsetSize(Below(scores, me), Ids(sorted, rank));
  }

  lemma {:induction false} EarlierAtMost(scores: Scores, sorted: seq<(string, real)>, me: string, rank: nat, k: nat)
    requires SortedScores(scores, sorted) && me in scores && k <= rank < |sorted| && sorted[rank].0 == me
    ensures sorted[k].0 in AtMost(scores, me)
  {
    assert scores[sorted[k].0] == sorted[k].1 && scores[me] == sorted[rank].1;
    assert k < rank ==> sorted[k].1 <= sorted[rank].1;
  }

  lemma {:induction false} RankBelow(scores: Scores, sorted: seq<(string, real)>, me: string, rank: nat)
    requires SortedScores(scores, sorted) && me in scores && rank < |sorted| && sorted[rank].0 == me
    ensures rank < |AtMost(scores, me)|
  {
    IdsBefore(sorted, rank + 1);
    forall id | id in Ids(sorted, rank + 1) ensures id in AtMost(scores, me) {
      IdIn(sorted, rank + 1, id);
      var k :| 0 <= k < rank + 1 && sorted[k].0 == id;
      EarlierAtMost(scores, sorted, me, rank, k);
    }
    SubsetSize(Ids(sorted, rank + 1), AtMost(scores, me));
  }

  // In any ascending arrangement a node's rank lies between the number of
  // smaller scores and the number of scores that are no larger; ties leave it open.
  lemma {:induction false} RankCounts(scores: Scores, sorted: seq<(string, real)>, me: string)
    requires SortedScores(scores, sorted) && me in scores
    ensures var r := Rank(sorted, me); r.Some? && |Below(scores, me)| <= r.value < |AtMost(scores, me)|
  {
    var rank := Rank(sorted, me).value;
    RankAtLeast(scores, sorted, me, rank);
    RankBelow(scores, sorted, me, rank);
  }

  lemma {:induction false} AtMostWithoutTies(scores: Scores, me: string)
    requires me in scores && TieFree(scores)
    ensures |AtMost(scores, me)| == |Below(scores, me)| + 1
  {
    assert AtMost(scores, me) == Below(scores, me) + {me};
  }

  // Without ties the rank is the number of smaller scores.
  lemma {:induction false} TieFreeRank(scores: Scores, sorted: seq<(string, real)>, me: string)
    requires SortedScores(scores, sorted) && me in scores && TieFree(scores)
    ensures Rank(sorted, me) == Some(|Below(scores, me)|)
  {
    RankCounts(scores, sorted, me);
    AtMostWithoutTies(scores, me);
  }

  // The safety delay is drawn from [lower + step * rank, lower + step * (rank + 1)].
  ghost predicate Drawn(lower: int, step: int, rank: nat, delay: int) {
    lower + step * rank <= delay <= lower + step * (rank + 1)
  }

  // A lower score means a lower rank, however each replica arranged the scores.
  lemma {:induction false} RanksFollowPenalties(scores: Scores, sortedA: seq<(string, real)>, a: string,
                                                sortedB: seq<(string, real)>, b: string)
    requires SortedScores(scores, sortedA) && SortedScores(scores, sortedB)
    requires a in scores && b in scores && scores[a] < scores[b]
    ensures var ra, rb := Rank(sortedA, a), Rank(sortedB, b); ra.Some? && rb.Some? && ra.value < rb.value
  {
    RankCounts(scores, sortedA, a);
    RankCounts(scores, sortedB, b);
    SubsetSize(AtMost(scores, a), Below(scores, b));
  }

  lemma {:induction false} TimesMonotone(step: int, x: int, y: int)
    requires step >= 0 && x <= y
    ensures step * x <= step * y
  {
  }

  lemma {:induction false} DrawsFollowRanks(lower: int, step: int, ra: nat, rb: nat, delayA: int, delayB: int)
    requires step >= 0 && ra < rb && Drawn(lower, step, ra, delayA) && Drawn(lower, step, rb, delayB)
    ensures delayA <= delayB
  {
    TimesMonotone(step, ra + 1, rb);
  }

  // Every draw for rank ra is at most every draw for rank rb.
  ghost predicate DrawsOrdered(ra: nat, rb: nat) {
    forall lower, step, delayA, delayB ::
      step >= 0 && Drawn(lower, step, ra, delayA) && Drawn(lower, step, rb, delayB) ==> delayA <= delayB
  }

  // Replicas that hold the same penalty map draw delays in the order of their
  // penalties, whatever is drawn and however ties are arranged.
  lemma {:induction false} DelaysFollowPenalties(scores: Scores, sortedA: seq<(string, real)>, a: string,
                                                 sortedB: seq<(string, real)>, b: string)
    requires SortedScores(scores, sortedA) && SortedScores(scores, sortedB)
    requires a in scores && b in scores && scores[a] < scores[b]
    ensures var ra, rb := Rank(sortedA, a), Rank(sortedB, b); ra.Some? && rb.Some? && DrawsOrdered(ra.value, rb.value)
  {
    RanksFollowPenalties(scores, sortedA, a, sortedB, b);
    DrawsAreOrdered(Rank(sortedA, a).value, Rank(sortedB, b).value);
  }

  lemma {:induction false} DrawsAreOrdered(ra: nat, rb: nat)
    requires ra < rb
    ensures DrawsOrdered(ra, rb)
  {
    forall lower, step, delayA, delayB | step >= 0 && Drawn(lower, step, ra, delayA) && Drawn(lower, step, rb, delayB)
      ensures delayA <= delayB
    {
      DrawsFollowRanks(lower, step, ra, rb, delayA, delayB);
    }
  }

  // Non-negative samples keep the windows non-negative.
  lemma {:induction false} WindowNonNegative(samples: seq<Sample>)
    requires forall k :: 0 <= k < |samples| ==> samples[k].rtt >= 0.0 && samples[k].rttVar >= 0.0
    ensures NonNegative(AggregateAll(samples).rtt) && NonNegative(AggregateAll(samples).rttVar)
  {
    WindowIsRecent(samples);
  }

  lemma {:induction false} JacobsonInRange(s: Stats)
    requires NonNegative(s.rtt) && NonNegative(s.rttVar)
    ensures 0.0 <= JacobsonEst(s) <= 800.0
  {
    MeanNonNegative(s.rtt);
    MeanNonNegative(s.rttVar);
  }

  // The sum of rtt + 8 * rttVar over the last k samples.
  function LastSum(samples: seq<Sample>, k: nat): real
    requires k <= |samples|
  {
    if k == 0 then 0.0
    else
      var x := samples[|samples| - k];
      LastSum(samples, k - 1) + x.rtt + 8.0 * x.rttVar
  }

  // Adding up front to back gives what adding up back to front gives.
  lemma {:induction false} SumFromFront(xs: seq<real>)
    requires |xs| > 0
    ensures Sum(xs) == xs[0] + Sum(xs[1..])
  {
    var last := |xs| - 1;
    if last > 0 {
      SumFromFront(xs[..last]);
      assert xs[1..][..last - 1] == xs[..last][1..];
    }
  }

  lemma {:induction false} WindowSum(samples: seq<Sample>, rtt: seq<real>, rttVar: seq<real>)
    requires |rtt| == |rttVar| <= |samples|
    requires forall k :: 0 <= k < |rtt| ==>
               rtt[k] == samples[|samples| - |rtt| + k].rtt && rttVar[k] == samples[|samples| - |rtt| + k].rttVar
    ensures Sum(rtt) + 8.0 * Sum(rttVar) == LastSum(samples, |rtt|)
    decreases |rtt|
  {
    if |rtt| > 0 {
      SumFromFront(rtt);
      SumFromFront(rttVar);
      WindowSum(samples, rtt[1..], rttVar[1..]);
    }
  }

  lemma {:induction false} Quotient(n: real, d: real, q: real)
    requires d > 0.0 && q * d == n
    ensures n / d == q
  {
  }

  lemma {:induction false} RtoTimesCount(w: real, mean: real, meanVar: real, sum: real, sumVar: real)
    requires w * mean == sum && w * meanVar == sumVar
    ensures (mean / 2.0 + 4.0 * meanVar) * (2.0 * w) == sum + 8.0 * sumVar
  {
    calc {
      (mean / 2.0 + 4.0 * meanVar) * (2.0 * w);
      w * mean + 8.0 * (w * meanVar);
      sum + 8.0 * sumVar;
    }
  }

  lemma {:induction false} RtoIsAverage(w: real, sum: real, sumVar: real)
    requires w > 0.0
    ensures sum / w / 2.0 + 4.0 * (sumVar / w) == (sum + 8.0 * sumVar) / (2.0 * w)
  {
    var mean, meanVar := sum / w, sumVar / w;
    RtoTimesCount(w, mean, meanVar, sum, sumVar);
    Quotient(sum + 8.0 * sumVar, 2.0 * w, mean / 2.0 + 4.0 * meanVar);
  }

  // With w samples in the window, the estimate is the sum of rtt + 8 * rttVar over
  // the last w samples, divided by 2 * w, but at most 800; without samples it is 0.
  ghost predicate IsEstimate(samples: seq<Sample>, est: real) {
    var w := WindowSize(samples);
    if w == 0 then est == 0.0
    else
      var average := LastSum(samples, w) / (2.0 * w as real);
      est == if average <= 800.0 then average else 800.0
  }

  lemma {:induction false} JacobsonIsEstimate(samples: seq<Sample>)
    ensures IsEstimate(samples, JacobsonEst(AggregateAll(samples)))
  {
    var s := AggregateAll(samples);
    assert |s.rtt| == |s.rttVar| == WindowSize(samples) by { WindowIsRecent(samples); }
    if |s.rtt| > 0 {
      assert Sum(s.rtt) + 8.0 * Sum(s.rttVar) == LastSum(samples, |s.rtt|) by {
        WindowIsRecent(samples);
        WindowSum(samples, s.rtt, s.rttVar);
      }
      RtoIsAverage(|s.rtt| as real, Sum(s.rtt), Sum(s.rttVar));
    }
  }

  // The Jacobson-mode timeout.
  function JacobsonTimeout(s: Stats, margin: int, delay: int): real {
    JacobsonEst(s) + (margin + delay) as real
  }

  // The timeout is the estimate from the samples plus the margins.
  lemma {:induction false} JacobsonTimeoutIs(samples: seq<Sample>, margin: int, delay: int)
    ensures var timeout := JacobsonTimeout(AggregateAll(samples), margin, delay);
            IsEstimate(samples, timeout - margin as real - delay as real)
  {
    JacobsonIsEstimate(samples);
  }

  // After any non-negative samples, and for any arrangement of penalties with
  // the replica's own among them, the Jacobson-mode timeout is at most the
  // estimate's cap plus the margins of the replica's rank, and at least the latter.
  lemma {:induction false} JacobsonTimeoutBounded(samples: seq<Sample>, sorted: seq<(string, real)>, me: string,
                                                  margin: int, lower: int, step: int, delay: int)
    requires forall k :: 0 <= k < |samples| ==> samples[k].rtt >= 0.0 && samples[k].rttVar >= 0.0
    requires Rank(sorted, me).Some? && Drawn(lower, step, Rank(sorted, me).value, delay)
    ensures var timeout, rank := JacobsonTimeout(AggregateAll(samples), margin, delay), Rank(sorted, me).value;
            (margin + lower + step * rank) as real <= timeout <= 800.0 + (margin + lower + step * (rank + 1)) as real
  {
    WindowNonNegative(samples);
    JacobsonInRange(AggregateAll(samples));
  }
}
