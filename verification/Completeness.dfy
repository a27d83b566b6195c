// The arguments of section 5.4 of the Raft paper, over the invariant.
module Completeness {
  import opened Types
  import opened LogOps
  import opened Handlers
  import opened Cluster
  import opened Invariant

  // ---- quorums ----

  lemma {:induction false} BelowSize(n: nat, a: set<nat>)
    requires forall y :: y in a ==> y < n
    ensures |a| <= n
  {
    if n == 0 {
      assert a == {};
    } else {
      BelowSize(n - 1, a - {n - 1});
    }
  }

  // Two sets of replicas whose sizes add up to more than n meet.
  lemma QuorumsMeet(n: nat, a: set<nat>, b: set<nat>) returns (y: nat)
    requires forall y :: y in a ==> y < n
    requires forall y :: y in b ==> y < n
    requires |a| + |b| > n
    ensures y in a && y in b
  {
    if a * b == {} {
      BelowSize(n, a + b);
      assert false;
    }
    y :| y in a * b;
  }

  // n/2 + 1 votes and (n+1)/2 acknowledgements always meet, for odd and even n,
  // and so do two election quorums; two commit quorums need not.
  lemma QuorumSizes(n: nat)
    ensures ElectionQuorum(n) + CommitQuorum(n) == n + 1
    ensures 2 * ElectionQuorum(n) > n
    ensures 2 * CommitQuorum(n) > n <==> n % 2 == 1
  {
  }

  // ---- logs ----

  // Log Matching: same term at an index, same log through that index.
  lemma TracedMatch(h: History, a: seq<LogEntry>, b: seq<LogEntry>)
    requires Traced(h, a) && Traced(h, b)
    ensures TermsDecide(a, b)
  {
    forall p | 0 <= p < |a| && p < |b| && a[p].term == b[p].term ensures Agree(a, b, p + 1) {
      assert TracedAt(h, a, p) && TracedAt(h, b, p);
    }
  }

  lemma TracedSorted(cfg: Config, sc: Scope, s: State, log: seq<LogEntry>)
    requires Inv(cfg, sc, s) && Traced(s.hist, log)
    ensures SortedTerms(log)
  {
    if |log| > 0 {
      var k := |log| - 1;
      assert TracedAt(s.hist, log, k);
      assert PartOk(cfg, sc, s, TermPart(log[k].term));
    }
  }

  // A log whose last entry is of term t is the log that t's leader had at that point.
  lemma LogOfLastTerm(cfg: Config, sc: Scope, s: State, log: seq<LogEntry>)
    requires Inv(cfg, sc, s) && Traced(s.hist, log) && |log| > 0
    ensures LastTerm(log) in s.hist.elections
    ensures Agree(log, s.hist.elections[LastTerm(log)].log, |log|)
    ensures var init := s.hist.elections[LastTerm(log)].initial; Agree(init, log, |init|)
  {
    assert TracedAt(s.hist, log, |log| - 1);
    assert PartOk(cfg, sc, s, TermPart(LastTerm(log)));
  }

  // ---- the vote ----

  // The up-to-date check of handle_request_vote: the candidate's log holds what
  // the voter holds of term t, or some term in between was won without it.
  lemma GrantCoversAt(cfg: Config, sc: Scope, s: State, mine: seq<LogEntry>, theirs: seq<LogEntry>, y: nat,
                      bound: nat, T: nat, t: nat, idx: nat)
    requires Inv(cfg, sc, s) && Traced(s.hist, mine) && Traced(s.hist, theirs)
    requires Keeps(s.hist, mine, y, bound) && bound <= T
    requires forall k :: 0 <= k < |theirs| ==> theirs[k].term < T
    requires UpToDate(LastTerm(theirs), |theirs|, mine)
    requires t in s.hist.elections && t < T
    ensures CoversAt(s.hist, theirs, T, y, t, idx)
  {
    var h := s.hist;
    var el := h.elections[t];
    if 1 <= idx <= Ack(h, t, y) && idx <= |el.log| && el.log[idx - 1].term == t {
      assert KeepsAt(h, mine, y, bound, t, idx);
      if Overtaken(h, t, idx, bound) {
        var w :| w in h.elections && t < w < bound && Misses(h, w, t, idx);
      } else {
        LogOfLastTerm(cfg, sc, s, mine);
        TracedSorted(cfg, sc, s, mine);
        assert mine[idx - 1].term == t <= LastTerm(mine);
        assert PartOk(cfg, sc, s, TermPart(t));
        LogOfLastTerm(cfg, sc, s, theirs);
        if LastTerm(theirs) > LastTerm(mine) {
          assert Agree(theirs, el.log, idx) || Misses(h, LastTerm(theirs), t, idx);
        }
      }
    }
  }

  lemma GrantCovers(cfg: Config, sc: Scope, s: State, mine: seq<LogEntry>, theirs: seq<LogEntry>, y: nat, bound: nat,
                    T: nat)
    requires Inv(cfg, sc, s) && Traced(s.hist, mine) && Traced(s.hist, theirs)
    requires Keeps(s.hist, mine, y, bound) && bound <= T
    requires forall k :: 0 <= k < |theirs| ==> theirs[k].term < T
    requires UpToDate(LastTerm(theirs), |theirs|, mine)
    ensures Covers(s.hist, theirs, T, y)
  {
    forall t, idx: nat | t in s.hist.elections && t < T ensures CoversAt(s.hist, theirs, T, y, t, idx) {
      GrantCoversAt(cfg, sc, s, mine, theirs, y, bound, T, t, idx);
    }
  }

  // ---- leader completeness ----

  // Whatever term t committed is in the log every later winner started with.
  lemma {:induction false} LeaderCompleteness(cfg: Config, sc: Scope, s: State, t: nat, idx: nat, T: nat)
    requires Inv(cfg, sc, s) && Committed(cfg.n, s.hist, t, idx)
    requires T in s.hist.elections && t < T
    ensures Agree(s.hist.elections[T].initial, s.hist.elections[t].log, idx)
    decreases T
  {
    var h, el := s.hist, s.hist.elections[T];
    assert PartOk(cfg, sc, s, TermPart(T));
    QuorumSizes(cfg.n);
    var y := QuorumsMeet(cfg.n, el.voters, AckSet(cfg.n, h, t, idx));
    assert Covers(h, el.initial, T, y);
    assert CoversAt(h, el.initial, T, y, t, idx);
    if Overtaken(h, t, idx, T) {
      var w :| w in h.elections && t < w < T && Misses(h, w, t, idx);
      LeaderCompleteness(cfg, sc, s, t, idx, w);
    }
  }

  // A certified prefix is a prefix of the log of every term from `bound` on.
  lemma CertifiedInLater(cfg: Config, sc: Scope, s: State, log: seq<LogEntry>, c: nat, bound: nat, T: nat)
    requires Inv(cfg, sc, s) && Certified(cfg.n, s.hist, log, c, bound)
    requires T in s.hist.elections && bound <= T
    ensures Agree(log, s.hist.elections[T].log, c)
  {
    if c > 0 {
      var t: nat, idx: nat :| CertifiedBy(cfg.n, s.hist, log, c, bound, t, idx);
      if t < T {
        LeaderCompleteness(cfg, sc, s, t, idx, T);
        assert PartOk(cfg, sc, s, TermPart(T));
      }
    }
  }

  lemma CertificatesAgree(cfg: Config, sc: Scope, s: State, a: seq<LogEntry>, c: nat, ba: nat, t: nat, idx: nat,
                          b: seq<LogEntry>, d: nat, bb: nat, u: nat, jdx: nat)
    requires Inv(cfg, sc, s) && t <= u
    requires CertifiedBy(cfg.n, s.hist, a, c, ba, t, idx) && CertifiedBy(cfg.n, s.hist, b, d, bb, u, jdx)
    ensures Agree(a, b, Min(c, d))
  {
    if t < u {
      LeaderCompleteness(cfg, sc, s, t, idx, u);
      assert ElectionLog(s.hist, u) by { assert PartOk(cfg, sc, s, TermPart(u)); }
    }
  }

  // Two certified prefixes never disagree.
  lemma CertifiedAgree(cfg: Config, sc: Scope, s: State, a: seq<LogEntry>, c: nat, b: seq<LogEntry>, d: nat, ba: nat,
                       bb: nat)
    requires Inv(cfg, sc, s)
    requires Certified(cfg.n, s.hist, a, c, ba) && Certified(cfg.n, s.hist, b, d, bb)
    ensures Agree(a, b, Min(c, d))
  {
    if c > 0 && d > 0 {
      var t: nat, idx: nat :| CertifiedBy(cfg.n, s.hist, a, c, ba, t, idx);
      var u: nat, jdx: nat :| CertifiedBy(cfg.n, s.hist, b, d, bb, u, jdx);
      if t <= u {
        CertificatesAgree(cfg, sc, s, a, c, ba, t, idx, b, d, bb, u, jdx);
      } else {
        CertificatesAgree(cfg, sc, s, b, d, bb, u, jdx, a, c, ba, t, idx);
      }
    }
  }

  // ---- election safety ----

  // Two candidates that have an election quorum of the votes of one term are the same.
  lemma OneWinner(n: nat, votes: map<(nat, nat), nat>, T: nat, i: nat, a: set<nat>, j: nat, b: set<nat>)
    requires |a| >= ElectionQuorum(n) && |b| >= ElectionQuorum(n)
    requires forall y :: y in a ==> y < n && (T, y) in votes && votes[(T, y)] == i
    requires forall y :: y in b ==> y < n && (T, y) in votes && votes[(T, y)] == j
    ensures i == j
  {
    QuorumSizes(n);
    var y := QuorumsMeet(n, a, b);
  }
}
