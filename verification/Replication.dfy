// One leader and one follower: the splice of the follower's log, the batches
// the leader cuts its messages into, and the search for the common prefix.
module Replication {
  import opened Types
  import opened LogOps
  import opened Batcher
  import opened Handlers

  // ---- the splice ----

  // The log has the message's entry p, judging by term.
  ghost predicate PresentAt(log: seq<LogEntry>, prev: nat, entries: seq<LogEntry>, p: nat)
    requires p < |entries|
  {
    prev + p < |log| && log[prev + p].term == entries[p].term
  }

  // The first entry of the message that the log does not have.
  ghost predicate IsFirstConflict(log: seq<LogEntry>, prev: nat, entries: seq<LogEntry>, c: nat) {
    && c < |entries| && prev + c <= |log|
    && !PresentAt(log, prev, entries, c)
    && forall p :: 0 <= p < c ==> PresentAt(log, prev, entries, p)
  }

  ghost predicate AllPresent(log: seq<LogEntry>, prev: nat, entries: seq<LogEntry>) {
    forall p :: 0 <= p < |entries| ==> PresentAt(log, prev, entries, p)
  }

  // The loop keeps the log when every entry is there; otherwise it keeps what is
  // before the first conflict and puts the rest of the message after it.
  lemma {:induction false} SpliceMeans(log: seq<LogEntry>, prev: nat, entries: seq<LogEntry>)
    requires prev <= |log|
    ensures AllPresent(log, prev, entries) ==> Splice(log, prev, entries) == log
    ensures forall c: nat :: IsFirstConflict(log, prev, entries, c) ==>
              Splice(log, prev, entries) == log[..prev + c] + entries[c..]
    ensures AllPresent(log, prev, entries) || exists c: nat :: IsFirstConflict(log, prev, entries, c)
  {
    var k := Settled(log, prev, entries);
    if k < |entries| {
      assert IsFirstConflict(log, prev, entries, k);
      forall c: nat | IsFirstConflict(log, prev, entries, c) ensures c == k {
        OneFirstConflict(log, prev, entries, c, k);
        OneFirstConflict(log, prev, entries, k, c);
      }
    }
  }

  lemma {:induction false} OneFirstConflict(log: seq<LogEntry>, prev: nat, entries: seq<LogEntry>, c: nat, d: nat)
    requires IsFirstConflict(log, prev, entries, c) && IsFirstConflict(log, prev, entries, d)
    ensures c <= d
  {
  }

  // A message delivered twice changes nothing the second time.
  lemma {:induction false} SpliceIdempotent(log: seq<LogEntry>, prev: nat, entries: seq<LogEntry>)
    requires prev <= |log|
    ensures var r := Splice(log, prev, entries); prev + |entries| <= |r| && Splice(r, prev, entries) == r
  {
    var r := Splice(log, prev, entries);
    assert AllPresent(r, prev, entries);
    SpliceMeans(r, prev, entries);
  }

  // ---- batches ----

  lemma {:induction false} SettledConcat(log: seq<LogEntry>, at: nat, a: seq<LogEntry>, b: seq<LogEntry>)
    ensures var k := Settled(log, at, a);
            Settled(log, at, a + b) == if k == |a| then k + Settled(log, at + k, b) else k
    decreases |a|
  {
    var ab := a + b;
    if |a| == 0 {
      assert ab == b;
    } else {
      assert ab[0] == a[0] && ab[1..] == a[1..] + b;
      SettledConcat(log, at + 1, a[1..], b);
    }
  }

  lemma {:induction false} DropOfConcat(a: seq<LogEntry>, b: seq<LogEntry>, j: nat)
    requires j <= |b|
    ensures (a + b)[|a| + j..] == b[j..]
  {
  }

  function CutAt(log: seq<LogEntry>, at: nat, rest: seq<LogEntry>): seq<LogEntry>
    requires at <= |log|
  {
    if |rest| == 0 then log else log[..at] + rest
  }

  lemma {:induction false} SpliceCutsAt(log: seq<LogEntry>, prev: nat, entries: seq<LogEntry>, k: nat, at: nat,
                                        rest: seq<LogEntry>)
    requires prev <= |log| && k == Settled(log, prev, entries) && at == prev + k && rest == entries[k..]
    ensures at <= |log| && Splice(log, prev, entries) == CutAt(log, at, rest)
  {
  }

  lemma {:induction false} SameCut(log: seq<LogEntry>, prev: nat, a: seq<LogEntry>, k: nat, prev': nat,
                                   b: seq<LogEntry>, j: nat)
    requires prev <= |log| && prev' <= |log| && k == Settled(log, prev, a) && j == Settled(log, prev', b)
    requires prev + k == prev' + j && a[k..] == b[j..]
    ensures Splice(log, prev, a) == Splice(log, prev', b)
  {
    SpliceCutsAt(log, prev, a, k, prev + k, a[k..]);
    SpliceCutsAt(log, prev', b, j, prev' + j, b[j..]);
  }

  lemma {:induction false} SpliceConcatKept(log: seq<LogEntry>, prev: nat, a: seq<LogEntry>, b: seq<LogEntry>)
    requires prev <= |log| && Settled(log, prev, a) == |a|
    ensures prev + |a| <= |log| && Splice(log, prev + |a|, b) == Splice(log, prev, a + b)
  {
    var j := Settled(log, prev + |a|, b);
    SettledConcat(log, prev, a, b);
    DropOfConcat(a, b, j);
    SameCut(log, prev, a + b, |a| + j, prev + |a|, b, j);
  }

  lemma {:induction false} SpliceCuts(log: seq<LogEntry>, prev: nat, entries: seq<LogEntry>, k: nat, r: seq<LogEntry>)
    requires prev <= |log| && k == Settled(log, prev, entries) < |entries| && prev + k <= |log|
    requires r == log[..prev + k] + entries[k..]
    ensures Splice(log, prev, entries) == r
  {
  }

  lemma {:induction false} SpliceAtEnd(r: seq<LogEntry>, at: nat, b: seq<LogEntry>)
    requires at == |r|
    ensures Splice(r, at, b) == r + b
  {
    assert b == [] ==> r + b == r;
  }

  // Keeping `keep` and going on with what a message still has.
  lemma {:induction false} CutConcat(keep: seq<LogEntry>, a: seq<LogEntry>, b: seq<LogEntry>, k: nat)
    requires k <= |a|
    ensures keep + (a + b)[k..] == (keep + a[k..]) + b
  {
  }

  lemma {:induction false} SpliceConcatCut(log: seq<LogEntry>, prev: nat, a: seq<LogEntry>, b: seq<LogEntry>)
    requires prev <= |log| && Settled(log, prev, a) < |a|
    ensures var r := Splice(log, prev, a);
            prev + |a| == |r| && Splice(r, prev + |a|, b) == Splice(log, prev, a + b)
  {
    var k := Settled(log, prev, a);
    var keep := log[..prev + k];
    var r := keep + a[k..];
    assert Splice(log, prev, a) == r by { SpliceCuts(log, prev, a, k, r); }
    assert Splice(log, prev, a + b) == r + b by {
      SettledConcat(log, prev, a, b);
      CutConcat(keep, a, b, k);
      SpliceCuts(log, prev, a + b, k, r + b);
    }
    assert Splice(r, prev + |a|, b) == r + b by { SpliceAtEnd(r, prev + |a|, b); }
  }

  // Splicing two consecutive slices is splicing them together.
  lemma {:induction false} SpliceConcat(log: seq<LogEntry>, prev: nat, a: seq<LogEntry>, b: seq<LogEntry>)
    requires prev <= |log|
    ensures var r := Splice(log, prev, a);
            prev + |a| <= |r| && Splice(r, prev + |a|, b) == Splice(log, prev, a + b)
  {
    if Settled(log, prev, a) < |a| {
      SpliceConcatCut(log, prev, a, b);
    } else {
      SpliceConcatKept(log, prev, a, b);
    }
  }

  // A follower processing messages one after the other.
  function Feed(f: nat, y: NodeState, ms: seq<Msg>): NodeState
    requires forall b :: 0 <= b < |ms| ==> ms[b].AppendEntries?
    decreases |ms|
  {
    if |ms| == 0 then y else Feed(f, OnAppendEntries(f, y, ms[0]).node, ms[1..])
  }

  ghost predicate ReadyFor(i: nat, x: NodeState, f: nat, y: NodeState, prev: nat) {
    && i != f && y.term <= x.term && prev <= |x.log|
    && ContainsEntry(y.log, prev, TermAt(x.log, prev))
  }

  function Sliced(i: nat, x: NodeState, f: nat, batches: seq<seq<LogEntry>>, prev: nat): (ms: seq<Msg>)
    ensures forall b :: 0 <= b < |ms| ==> ms[b].AppendEntries?
  {
    if |batches| == 0 then []
    else [ProposalAt(i, x, f, prev, batches[0])] + Sliced(i, x, f, batches[1..], prev + |batches[0]|)
  }

  // A non-empty batch that is accepted makes the follower ready for the next one.
  lemma {:induction false} BatchTaken(i: nat, x: NodeState, f: nat, y: NodeState, batch: seq<LogEntry>, prev: nat)
    requires ReadyFor(i, x, f, y, prev) && IsSlice(batch, x.log, prev) && batch != []
    ensures var y1 := OnAppendEntries(f, y, ProposalAt(i, x, f, prev, batch)).node;
            y1.log == Splice(y.log, prev, batch) && ReadyFor(i, x, f, y1, prev + |batch|)
  {
    var r, k := Splice(y.log, prev, batch), Settled(y.log, prev, batch);
    assert batch[|batch| - 1] == x.log[prev + (|batch| - 1)];
    if k == |batch| {
      assert y.log[prev + (k - 1)].term == batch[k - 1].term;
    }
    assert ContainsEntry(r, prev + |batch|, batch[|batch| - 1].term);
  }

  lemma {:induction false} FeedSliced(i: nat, x: NodeState, f: nat, y: NodeState, batches: seq<seq<LogEntry>>,
                                      prev: nat)
    requires ReadyFor(i, x, f, y, prev) && IsSlice(Flatten(batches), x.log, prev)
    requires forall b :: 0 <= b < |batches| ==> batches[b] != []
    ensures Feed(f, y, Sliced(i, x, f, batches, prev)).log == Splice(y.log, prev, Flatten(batches))
    decreases |batches|
  {
    if |batches| > 0 {
      var first, tail := batches[0], batches[1..];
      var ms := Sliced(i, x, f, batches, prev);
      SliceParts(x.log, prev, first, Flatten(tail));
      BatchTaken(i, x, f, y, first, prev);
      SpliceConcat(y.log, prev, first, Flatten(tail));
      assert ms[0] == ProposalAt(i, x, f, prev, first);
      assert ms[1..] == Sliced(i, x, f, tail, prev + |first|);
      FeedSliced(i, x, f, OnAppendEntries(f, y, ms[0]).node, tail, prev + |first|);
    }
  }

  lemma {:induction false} SliceParts(log: seq<LogEntry>, prev: nat, a: seq<LogEntry>, b: seq<LogEntry>)
    requires IsSlice(a + b, log, prev)
    ensures IsSlice(a, log, prev) && IsSlice(b, log, prev + |a|)
  {
    assert forall p :: 0 <= p < |a| ==> a[p] == (a + b)[p];
    assert forall p :: 0 <= p < |b| ==> b[p] == (a + b)[|a| + p];
  }

  lemma {:induction false} SlicedAt(i: nat, x: NodeState, f: nat, batches: seq<seq<LogEntry>>, prev: nat, from: nat,
                                    b: nat)
    requires from <= prev && b < |batches|
    ensures |Sliced(i, x, f, batches, prev)| == |batches|
    ensures Sliced(i, x, f, batches, prev)[b] == ProposalAt(i, x, f, prev - from + Starts(batches, from)[b], batches[b])
    decreases b
  {
    SlicedLength(i, x, f, batches, prev);
    if b > 0 {
      SlicedAt(i, x, f, batches[1..], prev + |batches[0]|, from + |batches[0]|, b - 1);
    }
  }

  lemma {:induction false} SlicedLength(i: nat, x: NodeState, f: nat, batches: seq<seq<LogEntry>>, prev: nat)
    ensures |Sliced(i, x, f, batches, prev)| == |batches|
    decreases |batches|
  {
    if |batches| > 0 {
      SlicedLength(i, x, f, batches[1..], prev + |batches[0]|);
    }
  }

  // The proposals are the consecutive slices.
  lemma {:induction false} ProposalsAreSliced(cfg: Config, i: nat, x: NodeState, f: nat)
    requires Sized(cfg, x) && f < cfg.n && AllFit(Pending(x.log, x.nextIndex[f]), cfg.entrySize) && x.nextIndex[f] >= 1
    ensures ProposalsTo(cfg, i, x, f)
            == Sliced(i, x, f, Batches(Pending(x.log, x.nextIndex[f]), cfg.entrySize), x.nextIndex[f] - 1)
  {
    var prev, batches := x.nextIndex[f] - 1, Batches(Pending(x.log, x.nextIndex[f]), cfg.entrySize);
    var a, c := ProposalsTo(cfg, i, x, f), Sliced(i, x, f, batches, prev);
    SlicedLength(i, x, f, batches, prev);
    forall b | 0 <= b < |batches| ensures a[b] == c[b] {
      SlicedAt(i, x, f, batches, prev, 0, b);
    }
  }

  // A follower that accepts the first batch and processes all batches in order
  // ends with the log that one message holding everything would have given.
  lemma {:induction false} ChunkingInvisible(cfg: Config, i: nat, x: NodeState, f: nat, y: NodeState)
    requires Sized(cfg, x) && f < cfg.n && AllFit(Pending(x.log, x.nextIndex[f]), cfg.entrySize)
    requires 1 <= x.nextIndex[f] <= |x.log| && ReadyFor(i, x, f, y, x.nextIndex[f] - 1)
    ensures var prev, pending := x.nextIndex[f] - 1, Pending(x.log, x.nextIndex[f]);
            && (forall b :: 0 <= b < |ProposalsTo(cfg, i, x, f)| ==> ProposalsTo(cfg, i, x, f)[b].AppendEntries?)
            && Feed(f, y, ProposalsTo(cfg, i, x, f)).log
               == OnAppendEntries(f, y, ProposalAt(i, x, f, prev, pending)).node.log
  {
    var prev, pending := x.nextIndex[f] - 1, Pending(x.log, x.nextIndex[f]);
    BatchesSplit(pending, cfg.entrySize);
    assert IsSlice(pending, x.log, prev);
    FeedSliced(i, x, f, y, Batches(pending, cfg.entrySize), prev);
    assert OnAppendEntries(f, y, ProposalAt(i, x, f, prev, pending)).node.log == Splice(y.log, prev, pending);
    ProposalsAreSliced(cfg, i, x, f);
  }

  // A batch that arrives early, its previous index beyond the log, is refused and changes no entry.
  lemma {:induction false} GapRefused(f: nat, y: NodeState, m: Msg)
    requires m.AppendEntries? && m.src != f && m.prevLogIndex > |y.log|
    ensures OnAppendEntries(f, y, m).node.log == y.log
    ensures OnAppendEntries(f, y, m).sent
            == [AppendResponse(f, m.src, if m.term < y.term then y.term else m.term, false, 0)]
  {
  }

  // ---- back-tracking ----

  // The length of the longest common prefix.
  function CommonPrefix(a: seq<LogEntry>, b: seq<LogEntry>): (k: nat)
    ensures Agree(a, b, k)
    ensures k < |a| && k < |b| ==> a[k] != b[k]
  {
    if |a| == 0 || |b| == 0 || a[0] != b[0] then 0
    else
      var k := CommonPrefix(a[1..], b[1..]);
      assert a == [a[0]] + a[1..] && b == [b[0]] + b[1..];
      k + 1
  }

  datatype Pair = Pair(leader: NodeState, follower: NodeState)

  // One exchange: heartbeat, answer, and the leader's reaction to the answer.
  function Exchange(cfg: Config, i: nat, f: nat, p: Pair): Pair
    requires Sized(cfg, p.leader) && f < cfg.n
  {
    var out := OnAppendEntries(f, p.follower, HeartbeatTo(i, p.leader, f));
    if |out.sent| == 1 then Pair(OnAppendResponse(cfg, p.leader, out.sent[0]).node, out.node)
    else Pair(p.leader, out.node)
  }

  predicate Rejects(f: nat, p: Pair)
    requires f < |p.leader.nextIndex|
  {
    !ContainsEntry(p.follower.log, p.leader.nextIndex[f] - 1, TermAt(p.leader.log, p.leader.nextIndex[f] - 1))
  }

  function Exchanges(cfg: Config, i: nat, f: nat, p: Pair, rounds: nat): (q: Pair)
    requires Sized(cfg, p.leader) && f < cfg.n
    ensures Sized(cfg, q.leader)
  {
    if rounds == 0 then p else Exchange(cfg, i, f, Exchanges(cfg, i, f, p, rounds - 1))
  }

  ghost predicate Paired(cfg: Config, i: nat, f: nat, p: Pair) {
    && Sized(cfg, p.leader) && f < cfg.n && i < cfg.n && i != f
    && p.leader.role.Leader? && p.follower.term <= p.leader.term
    && TermsDecide(p.leader.log, p.follower.log)
    && 1 <= p.leader.nextIndex[f] <= |p.leader.log| + 1
  }

  ghost predicate Probing(cfg: Config, i: nat, f: nat, p: Pair) {
    Paired(cfg, i, f, p) && CommonPrefix(p.leader.log, p.follower.log) <= p.leader.nextIndex[f] - 1
  }

  // A probe is refused exactly while it points beyond the common prefix.
  lemma {:induction false} RejectedIffBeyond(cfg: Config, i: nat, f: nat, p: Pair)
    requires Probing(cfg, i, f, p)
    ensures Rejects(f, p) <==> p.leader.nextIndex[f] - 1 > CommonPrefix(p.leader.log, p.follower.log)
  {
    var prev, k := p.leader.nextIndex[f] - 1, CommonPrefix(p.leader.log, p.follower.log);
    assert prev > k ==> !Agree(p.leader.log, p.follower.log, prev);
  }

  // The leader after k refusals of f.
  function SteppedBack(x: NodeState, f: nat, k: nat): NodeState
    requires f < |x.nextIndex|
  {
    x.(nextIndex := x.nextIndex[f := x.nextIndex[f] - k])
  }

  // From p to q there were k refusals and nothing else.
  ghost predicate Refused(f: nat, p: Pair, q: Pair, k: nat) {
    && f < |p.leader.nextIndex| && q.leader == SteppedBack(p.leader, f, k)
    && q.follower.log == p.follower.log && q.follower.commitIndex == p.follower.commitIndex
  }

  lemma {:induction false} RefusedAgain(f: nat, p: Pair, q: Pair, r: Pair, k: nat)
    requires Refused(f, p, q, k) && Refused(f, q, r, 1)
    ensures Refused(f, p, r, k + 1)
  {
    var s := p.leader.nextIndex;
    assert s[f := s[f] - k][f := s[f] - k - 1] == s[f := s[f] - (k + 1)];
  }

  // The number of refusals to come.
  function Distance(f: nat, p: Pair): int
    requires f < |p.leader.nextIndex|
  {
    p.leader.nextIndex[f] - 1 - CommonPrefix(p.leader.log, p.follower.log)
  }

  // The follower's side of a refused probe ...
  lemma {:induction false} RefusedProbe(cfg: Config, i: nat, f: nat, p: Pair)
    requires Paired(cfg, i, f, p) && Rejects(f, p)
    ensures var out := OnAppendEntries(f, p.follower, HeartbeatTo(i, p.leader, f));
            && out.sent == [AppendResponse(f, i, p.leader.term, false, 0)]
            && out.node.log == p.follower.log && out.node.commitIndex == p.follower.commitIndex
            && out.node.term == p.leader.term
  {
  }

  // ... and the leader's.
  lemma {:induction false} RefusalHandled(cfg: Config, i: nat, f: nat, x: NodeState)
    requires Sized(cfg, x) && f < cfg.n && x.role.Leader? && x.nextIndex[f] >= 2
    ensures OnAppendResponse(cfg, x, AppendResponse(f, i, x.term, false, 0)).node == SteppedBack(x, f, 1)
  {
  }

  // A refused exchange moves the next index one back and leaves the logs alone.
  lemma {:induction false} RefusedExchange(cfg: Config, i: nat, f: nat, p: Pair)
    requires Probing(cfg, i, f, p) && Rejects(f, p)
    ensures Probing(cfg, i, f, Exchange(cfg, i, f, p)) && Refused(f, p, Exchange(cfg, i, f, p), 1)
  {
    RejectedIffBeyond(cfg, i, f, p);
    RefusedProbe(cfg, i, f, p);
    RefusalHandled(cfg, i, f, p.leader);
  }

  lemma {:induction false} StillBeyond(cfg: Config, i: nat, f: nat, p: Pair, q: Pair, k: nat)
    requires Refused(f, p, q, k) && Probing(cfg, i, f, q)
    ensures Rejects(f, q) <==> k < Distance(f, p)
  {
    RejectedIffBeyond(cfg, i, f, q);
  }

  ghost predicate Backtracked(cfg: Config, i: nat, f: nat, p: Pair, q: Pair, k: nat) {
    Probing(cfg, i, f, q) && Refused(f, p, q, k)
  }

  lemma {:induction false} NoRound(cfg: Config, i: nat, f: nat, p: Pair)
    requires Probing(cfg, i, f, p)
    ensures Backtracked(cfg, i, f, p, p, 0)
  {
    assert p.leader.nextIndex[f := p.leader.nextIndex[f]] == p.leader.nextIndex;
  }

  lemma {:induction false} OneMoreRound(cfg: Config, i: nat, f: nat, p: Pair, q: Pair, k: nat)
    requires Backtracked(cfg, i, f, p, q, k) && k < Distance(f, p)
    ensures Backtracked(cfg, i, f, p, Exchange(cfg, i, f, q), k + 1)
  {
    StillBeyond(cfg, i, f, p, q, k);
    RefusedExchange(cfg, i, f, q);
    RefusedAgain(f, p, q, Exchange(cfg, i, f, q), k);
  }

  // A sequence of exchanges, each starting where the one before ended.
  ghost predicate IsTrace(cfg: Config, i: nat, f: nat, qs: seq<Pair>) {
    forall k {:trigger ExchangeAt(cfg, i, f, qs, k)} :: 0 <= k < |qs| - 1 ==> ExchangeAt(cfg, i, f, qs, k)
  }

  ghost predicate ExchangeAt(cfg: Config, i: nat, f: nat, qs: seq<Pair>, k: nat)
    requires k + 1 < |qs|
  {
    Sized(cfg, qs[k].leader) && f < cfg.n && qs[k + 1] == Exchange(cfg, i, f, qs[k])
  }

  lemma {:induction false} BacktrackTrace(cfg: Config, i: nat, f: nat, p: Pair, qs: seq<Pair>, k: nat)
    requires Probing(cfg, i, f, p) && k <= Distance(f, p) && k < |qs| && qs[0] == p && IsTrace(cfg, i, f, qs)
    ensures forall j: nat :: j <= k ==> Backtracked(cfg, i, f, p, qs[j], j)
  {
    if k == 0 {
      NoRound(cfg, i, f, p);
    } else {
      BacktrackTrace(cfg, i, f, p, qs, k - 1);
      assert Backtracked(cfg, i, f, p, qs[k - 1], k - 1);
      assert ExchangeAt(cfg, i, f, qs, k - 1);
      OneMoreRound(cfg, i, f, p, qs[k - 1], k - 1);
    }
  }

  // The trace that Exchanges follows.
  function Trace(cfg: Config, i: nat, f: nat, p: Pair, rounds: nat): (qs: seq<Pair>)
    requires Sized(cfg, p.leader) && f < cfg.n
    ensures |qs| == rounds + 1 && forall k :: 0 <= k <= rounds ==> qs[k] == Exchanges(cfg, i, f, p, k)
  {
    seq(rounds + 1, k requires 0 <= k => Exchanges(cfg, i, f, p, k))
  }

  lemma {:induction false} BacktrackRounds(cfg: Config, i: nat, f: nat, p: Pair, rounds: nat)
    requires Probing(cfg, i, f, p) && rounds <= Distance(f, p)
    ensures Backtracked(cfg, i, f, p, Exchanges(cfg, i, f, p, rounds), rounds)
  {
    var qs := Trace(cfg, i, f, p, rounds);
    forall k | 0 <= k < |qs| - 1 ensures ExchangeAt(cfg, i, f, qs, k) {
      assert qs[k] == Exchanges(cfg, i, f, p, k) && qs[k + 1] == Exchanges(cfg, i, f, p, k + 1);
    }
    BacktrackTrace(cfg, i, f, p, qs, rounds);
  }

  // From a next index past the common prefix, the exchange is refused exactly
  // nextIndex - 1 - prefix times, each time moving one back and changing neither
  // log ...
  lemma {:induction false} BacktrackRefusals(cfg: Config, i: nat, f: nat, p: Pair, r: nat)
    requires Probing(cfg, i, f, p) && r < Distance(f, p)
    ensures Rejects(f, Exchanges(cfg, i, f, p, r))
    ensures var q := Exchanges(cfg, i, f, p, r + 1);
            && q.leader.nextIndex[f] == p.leader.nextIndex[f] - (r + 1) >= 1
            && q.leader.log == p.leader.log && q.follower.log == p.follower.log
  {
    BacktrackRounds(cfg, i, f, p, r);
    StillBeyond(cfg, i, f, p, Exchanges(cfg, i, f, p, r), r);
    BacktrackRounds(cfg, i, f, p, r + 1);
  }

  lemma {:induction false} AcceptedProbe(cfg: Config, i: nat, f: nat, p: Pair, q: Pair)
    requires f < |p.leader.nextIndex| && Distance(f, p) >= 0
    requires Probing(cfg, i, f, q) && Refused(f, p, q, Distance(f, p))
    ensures var k := CommonPrefix(p.leader.log, p.follower.log);
            && !Rejects(f, q) && q.leader.nextIndex[f] == k + 1
            && OnAppendEntries(f, q.follower, HeartbeatTo(i, q.leader, f)).sent
               == [AppendResponse(f, i, p.leader.term, true, k)]
  {
    StillBeyond(cfg, i, f, p, q, Distance(f, p));
  }

  // ... and is then accepted at the common prefix itself.
  lemma {:induction false} BacktrackConverges(cfg: Config, i: nat, f: nat, p: Pair)
    requires Probing(cfg, i, f, p)
    ensures var k := CommonPrefix(p.leader.log, p.follower.log);
            var q := Exchanges(cfg, i, f, p, Distance(f, p));
            && !Rejects(f, q) && q.leader.nextIndex[f] == k + 1
            && OnAppendEntries(f, q.follower, HeartbeatTo(i, q.leader, f)).sent
               == [AppendResponse(f, i, p.leader.term, true, k)]
  {
    BacktrackRounds(cfg, i, f, p, Distance(f, p));
    AcceptedProbe(cfg, i, f, p, Exchanges(cfg, i, f, p, Distance(f, p)));
  }

  // ---- the follower's commit rule ----

  // The code takes min(leaderCommit, last log index), its comment says
  // min(leaderCommit, index of last new entry): the two give the same commit
  // index exactly when leaderCommit or the log ends with the message.
  lemma {:induction false} CommitRulesAgreeIff(f: nat, y: NodeState, m: Msg)
    requires m.AppendEntries? && m.src != f && y.term <= m.term
    requires ContainsEntry(y.log, m.prevLogIndex, m.prevLogTerm)
    ensures var last := m.prevLogIndex + |m.entries|;
            var log := Splice(y.log, m.prevLogIndex, m.entries);
            OnAppendEntries(f, y, m).node.commitIndex
              == (if m.leaderCommit > y.commitIndex then Min(m.leaderCommit, last) else y.commitIndex)
            <==> (m.leaderCommit > y.commitIndex ==> m.leaderCommit <= last || |log| <= last)
  {
    SpliceIdempotent(y.log, m.prevLogIndex, m.entries);
  }
}
