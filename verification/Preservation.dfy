// Every event of an admitted run keeps the invariant.
module Preservation {
  import opened Types
  import opened LogOps
  import opened Batcher
  import opened Handlers
  import opened Cluster
  import opened Invariant
  import opened Stability
  import opened Completeness

  // Events that leave the log, the reigns and the acknowledgements alone.
  lemma SameLog(cfg: Config, sc: Scope, s: State, s': State, i: nat)
    requires Inv(cfg, sc, s) && LocalStep(cfg, s, s', i)
    requires s'.hist.elections == s.hist.elections && s'.hist.acks == s.hist.acks
    requires s'.nodes[i].log == s.nodes[i].log
    ensures NodeLog(cfg, s', i)
    ensures sc.Commits? && s'.nodes[i].commitIndex == s.nodes[i].commitIndex ==> NodeCommit(cfg, s', i)
    ensures Keeps(s'.hist, s'.nodes[i].log, i, Bound(s', i))
  {
    var x, x' := s.nodes[i], s'.nodes[i];
    assert PartOk(cfg, sc, s, NodePart(i));
    InvAcksBounded(cfg, sc, s);
    TracedStable(s.hist, s'.hist, x.log);
    if sc.Commits? {
      CertifiedStable(cfg.n, s.hist, s'.hist, x.log, x.log, x.commitIndex, x.term, x'.term);
    }
    KeepsStable(s.hist, s'.hist, i, x'.term, x.log, i, Bound(s, i), Bound(s', i));
  }

  ghost predicate StandEffect(cfg: Config, s: State, i: nat, s': State)
    requires Shape(cfg, s) && i < cfg.n
  {
    var y, h := OnTimeout(cfg, i, s.nodes[i]).node, s.hist;
    && Shape(cfg, s') && s'.nodes == s.nodes[i := y] && s.net <= s'.net
    && s'.hist == h.(counted := h.counted[i := {}], heard := h.heard[i := false])
    && forall m :: m in s'.net && m !in s.net ==>
         m.RequestVote? && m == RequestVote(i, m.dst, y.term, |y.log|, LastTerm(y.log), false)
  }

  lemma StandStep(cfg: Config, s: State, e: Event)
    requires Enabled(cfg, s, e) && e.Timeout? && MayStand(cfg, e.i, s.nodes[e.i])
    ensures StandEffect(cfg, s, e.i, Step(cfg, s, e))
  {
    ShapeStep(cfg, s, e);
  }

  lemma StandKeeps(cfg: Config, sc: Scope, s: State, i: nat, s': State)
    requires Inv(cfg, sc, s) && i < cfg.n && MayStand(cfg, i, s.nodes[i]) && StandEffect(cfg, s, i, s')
    ensures Inv(cfg, sc, s') && LocalStep(cfg, s, s', i)
  {
    assert NodeOk(cfg, sc, s, i) by { assert PartOk(cfg, sc, s, NodePart(i)); }
    SameLog(cfg, sc, s, s', i);
    if s'.nodes[i].term in s.hist.elections {
      assert PartOk(cfg, sc, s, TermPart(s'.nodes[i].term));
    }
    assert CandidateOk(cfg, s', i);
    NodesStable(cfg, sc, s, s', i);
    InvFromLocal(cfg, sc, s, s', i);
  }

  // Step-downs and petitions: nothing but the role and petition bookkeeping moves.
  lemma BystanderKeeps(cfg: Config, sc: Scope, s: State, s': State, i: nat)
    requires Inv(cfg, sc, s) && Shape(cfg, s') && i < cfg.n
    requires s'.hist == s.hist && |s'.nodes| == cfg.n && s' == s.(nodes := s.nodes[i := s'.nodes[i]], net := s'.net)
    requires var x, y := s.nodes[i], s'.nodes[i];
             && y == x.(role := y.role, leader := y.leader, petitions := y.petitions, petitionCount := y.petitionCount)
             && (y.role == x.role || y.role.Follower?)
    requires s.net <= s'.net && forall m :: m in s'.net && m !in s.net ==> MsgOk(cfg, sc, s', m)
    ensures Inv(cfg, sc, s') && LocalStep(cfg, s, s', i)
  {
    assert PartOk(cfg, sc, s, NodePart(i));
    SameLog(cfg, sc, s, s', i);
    assert LeaderOk(cfg, s', i);
    assert CandidateOk(cfg, s', i);
    NodesStable(cfg, sc, s, s', i);
    InvFromLocal(cfg, sc, s, s', i);
  }

  lemma BystanderEventKeeps(cfg: Config, sc: Scope, s: State, e: Event)
    requires Inv(cfg, sc, s) && Enabled(cfg, s, e)
    requires e.Failure? || e.PenaltyTimer? || (e.Deliver? && e.m.Petition?)
             || (e.Timeout? && !MayStand(cfg, e.i, s.nodes[e.i]))
    ensures Inv(cfg, sc, Step(cfg, s, e)) && LocalStep(cfg, s, Step(cfg, s, e), Actor(e))
  {
    var s' := Step(cfg, s, e);
    ShapeStep(cfg, s, e);
    assert s'.hist == s.hist;
    BystanderKeeps(cfg, sc, s, s', Actor(e));
  }

  // ---- the leader's messages ----

  ghost predicate IsAppendOf(i: nat, x: NodeState, m: Msg) {
    && m.AppendEntries? && m.src == i && m.term == x.term && m.leaderCommit == x.commitIndex
    && m.prevLogTerm == TermAt(x.log, m.prevLogIndex)
    && (0 <= m.prevLogIndex <= |x.log| ==> IsSlice(m.entries, x.log, m.prevLogIndex))
  }

  lemma AppendIsOk(cfg: Config, sc: Scope, s: State, i: nat, m: Msg)
    requires Shape(cfg, s) && i < cfg.n && s.nodes[i].role.Leader?
    requires LeaderOk(cfg, s, i) && (sc.Commits? ==> NodeCommit(cfg, s, i)) && IsAppendOf(i, s.nodes[i], m)
    ensures MsgOk(cfg, sc, s, m)
  {
  }

  ghost predicate AllAppends(i: nat, x: NodeState, ms: seq<Msg>) {
    forall b :: 0 <= b < |ms| ==> IsAppendOf(i, x, ms[b])
  }

  lemma ProposalsToAreAppends(cfg: Config, i: nat, x: NodeState, d: nat)
    requires Sized(cfg, x) && d < cfg.n && AllFit(Pending(x.log, x.nextIndex[d]), cfg.entrySize)
    ensures AllAppends(i, x, ProposalsTo(cfg, i, x, d))
  {
    var pending := Pending(x.log, x.nextIndex[d]);
    var batches := Batches(pending, cfg.entrySize);
    var ms := ProposalsTo(cfg, i, x, d);
    forall b | 0 <= b < |ms| ensures IsAppendOf(i, x, ms[b]) {
      BatchIsSlice(pending, cfg.entrySize, b);
      PendingSlice(x.log, x.nextIndex[d], batches[b], Starts(batches, 0)[b]);
    }
  }

  lemma BatchIsSlice(entries: seq<LogEntry>, size: LogEntry -> nat, b: nat)
    requires AllFit(entries, size) && b < |Batches(entries, size)|
    ensures var batches := Batches(entries, size); IsSlice(batches[b], entries, Starts(batches, 0)[b])
    ensures |entries| > 0
  {
    BatchesSplit(entries, size);
    StartsLocate(Batches(entries, size), 0, b);
  }

  lemma PendingSlice(log: seq<LogEntry>, start: int, entries: seq<LogEntry>, at: nat)
    requires IsSlice(entries, Pending(log, start), at) && 1 <= start <= |log|
    ensures IsSlice(entries, log, start - 1 + at)
  {
  }

  lemma ProposalsAreAppends(cfg: Config, i: nat, x: NodeState, skip: set<nat>, k: nat)
    requires Sized(cfg, x) && k <= cfg.n && ProposalsEnd(cfg, i, x, skip)
    ensures AllAppends(i, x, ProposalsBelow(cfg, i, x, skip, k))
  {
    var parts, ms := Parts(cfg, i, x, skip, k), ProposalsBelow(cfg, i, x, skip, k);
    forall q | 0 <= q < |ms| ensures IsAppendOf(i, x, ms[q]) {
      var d, b := FlattenFrom(parts, q);
      ProposalsToAreAppends(cfg, i, x, d);
    }
  }

  lemma HeartbeatKeeps(cfg: Config, sc: Scope, s: State, e: Event)
    requires Inv(cfg, sc, s) && Enabled(cfg, s, e) && e.Heartbeat?
    ensures Inv(cfg, sc, Step(cfg, s, e)) && LocalStep(cfg, s, Step(cfg, s, e), Actor(e))
  {
    var s', x := Step(cfg, s, e), s.nodes[e.i];
    ShapeStep(cfg, s, e);
    assert s'.hist == s.hist;
    assert PartOk(cfg, sc, s, NodePart(e.i));
    forall m | m in s'.net && m !in s.net ensures MsgOk(cfg, sc, s', m) {
      assert IsAppendOf(e.i, x, m);
      AppendIsOk(cfg, sc, s, e.i, m);
    }
    BystanderKeeps(cfg, sc, s, s', e.i);
  }

  // A leader appended one entry of its term.
  ghost predicate ReignGrew(cfg: Config, s: State, s': State, i: nat) {
    && LocalStep(cfg, s, s', i)
    && var x, y := s.nodes[i], s'.nodes[i];
       && x.role.Leader? && x.term in s.hist.elections
       && |y.log| == |x.log| + 1 && y.log[..|x.log|] == x.log && y.log[|x.log|].term == x.term
       && y == x.(log := y.log, clients := y.clients)
       && s'.hist == s.hist.(elections := s.hist.elections[x.term := s.hist.elections[x.term].(log := y.log)],
                             acks := s.hist.acks[(x.term, i) := |y.log|])
  }

  lemma TracedGrows(cfg: Config, sc: Scope, s: State, s': State, i: nat)
    requires Inv(cfg, sc, s) && ReignGrew(cfg, s, s', i)
    ensures Traced(s'.hist, s'.nodes[i].log)
  {
    var x, y := s.nodes[i], s'.nodes[i];
    assert PartOk(cfg, sc, s, NodePart(i));
    TracedStable(s.hist, s'.hist, x.log);
    forall k | 0 <= k < |y.log| ensures TracedAt(s'.hist, y.log, k) {
      if k < |x.log| {
        assert y.log[k] == x.log[k];
        assert TracedAt(s'.hist, x.log, k);
        assert forall p :: 0 <= p < |x.log| ==> x.log[p] == y.log[p];
      }
    }
  }

  lemma KeepsGrows(cfg: Config, sc: Scope, s: State, s': State, i: nat)
    requires Inv(cfg, sc, s) && ReignGrew(cfg, s, s', i)
    ensures Keeps(s'.hist, s'.nodes[i].log, i, Bound(s', i))
  {
    var x, y, h, h' := s.nodes[i], s'.nodes[i], s.hist, s'.hist;
    assert PartOk(cfg, sc, s, NodePart(i));
    InvAcksBounded(cfg, sc, s);
    assert forall p :: 0 <= p < |x.log| ==> x.log[p] == y.log[p];
    forall t, idx: nat | t in h'.elections ensures KeepsAt(h', y.log, i, Bound(s', i), t, idx) {
      if t != x.term && idx <= Ack(h', t, i) {
        assert KeepsAt(h, x.log, i, Bound(s, i), t, idx);
        if Overtaken(h, t, idx, Bound(s, i)) {
          OvertakenStable(h, h', t, idx, Bound(s, i), Bound(s', i));
        }
      }
    }
  }

  lemma NodeGrows(cfg: Config, sc: Scope, s: State, s': State, i: nat)
    requires Inv(cfg, sc, s) && ReignGrew(cfg, s, s', i)
    ensures NodesOk(cfg, sc, s')
  {
    var x, y, T := s.nodes[i], s'.nodes[i], s.nodes[i].term;
    TracedGrows(cfg, sc, s, s', i);
    KeepsGrows(cfg, sc, s, s', i);
    assert NodeOk(cfg, sc, s, i) by { assert PartOk(cfg, sc, s, NodePart(i)); }
    assert NodeLog(cfg, s', i);
    if sc.Commits? {
      assert forall p :: 0 <= p < |x.log| ==> x.log[p] == y.log[p];
      CertifiedStable(cfg.n, s.hist, s'.hist, x.log, y.log, x.commitIndex, T, T);
    }
    NodesStable(cfg, sc, s, s', i);
  }

  lemma ReignExtended(cfg: Config, sc: Scope, s: State, s': State, i: nat)
    requires Inv(cfg, sc, s) && ReignGrew(cfg, s, s', i)
    ensures NewReignsOk(cfg, s, s')
  {
    var x, y, T := s.nodes[i], s'.nodes[i], s.nodes[i].term;
    var el := s.hist.elections[T];
    assert PartOk(cfg, sc, s, TermPart(T));
    assert x.log == el.log by { assert PartOk(cfg, sc, s, NodePart(i)); }
    assert ElectionLog(s'.hist, T) by {
      TracedGrows(cfg, sc, s, s', i);
      assert forall p :: 0 <= p < |x.log| ==> x.log[p] == y.log[p];
    }
    InvAcksBounded(cfg, sc, s);
    forall v | v in el.voters ensures Covers(s'.hist, el.initial, T, v) {
      CoversStable(s.hist, s'.hist, i, T, el.initial, T, v);
    }
  }

  ghost predicate ClientRequestEffect(cfg: Config, s: State, e: Event, s': State)
    requires Enabled(cfg, s, e) && e.ClientRequest?
  {
    var i, h := e.i, s.hist;
    var x := s.nodes[i];
    if !x.role.Leader? || x.term !in h.elections then s' == s || x.role.Leader?
    else
      var y := Appended(x, e.command, e.clientId, e.requestId);
      && Shape(cfg, s')
      && s'.nodes == s.nodes[i := y] && s.net <= s'.net
      && (forall m :: m in s'.net && m !in s.net ==> m in ProposalsBelow(cfg, i, y, e.skip, cfg.n))
      && s'.hist == h.(elections := h.elections[x.term := h.elections[x.term].(log := y.log)],
                       acks := h.acks[(x.term, i) := |y.log|])
  }

  lemma ClientRequestStep(cfg: Config, s: State, e: Event)
    requires Enabled(cfg, s, e) && e.ClientRequest?
    ensures ClientRequestEffect(cfg, s, e, Step(cfg, s, e))
  {
    ShapeStep(cfg, s, e);
    if !s.nodes[e.i].role.Leader? {
      assert Step(cfg, s, e) == s;
    }
  }

  lemma ClientRequestGrows(cfg: Config, sc: Scope, s: State, e: Event, s': State)
    requires Inv(cfg, sc, s) && Enabled(cfg, s, e) && e.ClientRequest? && s.nodes[e.i].role.Leader?
    requires ClientRequestEffect(cfg, s, e, s')
    ensures ReignGrew(cfg, s, s', e.i)
  {
    var i, T := e.i, s.nodes[e.i].term;
    assert LeaderOk(cfg, s, i) by { assert PartOk(cfg, sc, s, NodePart(i)); }
    if (T, i) in s.hist.acks {
      assert PartOk(cfg, sc, s, AckPart(T, i));
    }
  }

  lemma ClientRequestKeeps(cfg: Config, sc: Scope, s: State, e: Event, s': State)
    requires Inv(cfg, sc, s) && Enabled(cfg, s, e) && e.ClientRequest?
    requires ClientRequestEffect(cfg, s, e, s')
    ensures Inv(cfg, sc, s') && LocalStep(cfg, s, s', e.i)
  {
    var i := e.i;
    if s.nodes[i].role.Leader? {
      assert LeaderOk(cfg, s, i) by { assert PartOk(cfg, sc, s, NodePart(i)); }
      ClientRequestGrows(cfg, sc, s, e, s');
      NodeGrows(cfg, sc, s, s', i);
      ReignExtended(cfg, sc, s, s', i);
      ProposalsAreAppends(cfg, i, s'.nodes[i], e.skip, cfg.n);
      assert NodeOk(cfg, sc, s', i);
      forall m | m in s'.net && m !in s.net ensures MsgOk(cfg, sc, s', m) {
        AppendIsOk(cfg, sc, s', i, m);
      }
      InvFromLocal(cfg, sc, s, s', i);
    }
  }

  // ---- a queued become_leader runs ----

  ghost predicate LeaderTaskEffect(cfg: Config, s: State, i: nat, s': State)
    requires Shape(cfg, s) && i < cfg.n && s.nodes[i].leaderTasks > 0
  {
    var x, h, T := s.nodes[i], s.hist, s.nodes[i].term;
    && Shape(cfg, s') && s'.net == s.net
    && s'.nodes == s.nodes[i := OnLeaderTask(cfg, i, x).node]
    && s'.hist == h.(elections := if T in h.elections then h.elections
                                  else h.elections[T := Election(i, h.counted[i], x.log, x.log)],
                     acks := if T in h.elections then h.acks else h.acks[(T, i) := |x.log|])
  }

  lemma LeaderTaskStep(cfg: Config, s: State, e: Event)
    requires Enabled(cfg, s, e) && e.LeaderTask?
    ensures LeaderTaskEffect(cfg, s, e.i, Step(cfg, s, e))
  {
    ShapeStep(cfg, s, e);
  }

  // A second task of the same election only resets what the leader knows.
  lemma LeaderAgainKeeps(cfg: Config, sc: Scope, s: State, i: nat, s': State)
    requires Inv(cfg, sc, s) && i < cfg.n && s.nodes[i].leaderTasks > 0 && s.nodes[i].role.Leader?
    requires LeaderTaskEffect(cfg, s, i, s')
    ensures Inv(cfg, sc, s') && LocalStep(cfg, s, s', i)
  {
    assert PartOk(cfg, sc, s, NodePart(i));
    SameLog(cfg, sc, s, s', i);
    assert LeaderOk(cfg, s', i);
    assert CandidateOk(cfg, s', i);
    NodesStable(cfg, sc, s, s', i);
    InvFromLocal(cfg, sc, s, s', i);
  }

  // No term is won twice.
  lemma FirstWin(cfg: Config, sc: Scope, s: State, i: nat)
    requires Inv(cfg, sc, s) && i < cfg.n && s.nodes[i].role.Candidate?
    requires |s.hist.counted[i]| >= ElectionQuorum(cfg.n)
    ensures s.nodes[i].term !in s.hist.elections
  {
    var T := s.nodes[i].term;
    assert CandidateOk(cfg, s, i) by { assert PartOk(cfg, sc, s, NodePart(i)); }
    if T in s.hist.elections {
      var el := s.hist.elections[T];
      assert ElectionShape(cfg, s, T) by { assert PartOk(cfg, sc, s, TermPart(T)); }
      OneWinner(cfg.n, s.hist.votes, T, i, s.hist.counted[i], el.leader, el.voters);
    }
  }

  ghost predicate Wins(cfg: Config, s: State, i: nat, s': State) {
    && Shape(cfg, s) && i < cfg.n && s.nodes[i].leaderTasks > 0
    && s.nodes[i].role.Candidate? && s.nodes[i].term !in s.hist.elections
    && |s.hist.counted[i]| >= ElectionQuorum(cfg.n)
    && LeaderTaskEffect(cfg, s, i, s')
    && LocalStep(cfg, s, s', i)
  }

  lemma WinnerStep(cfg: Config, sc: Scope, s: State, i: nat, s': State)
    requires Inv(cfg, sc, s) && i < cfg.n && s.nodes[i].leaderTasks > 0 && s.nodes[i].role.Candidate?
    requires s.nodes[i].term !in s.hist.elections && LeaderTaskEffect(cfg, s, i, s')
    ensures LocalStep(cfg, s, s', i)
  {
    InvAcksBounded(cfg, sc, s);
  }

  lemma WinnerElection(cfg: Config, sc: Scope, s: State, i: nat, s': State)
    requires Inv(cfg, sc, s) && Wins(cfg, s, i, s')
    ensures NewReignsOk(cfg, s, s')
  {
    var x, T, h := s.nodes[i], s.nodes[i].term, s.hist;
    assert PartOk(cfg, sc, s, NodePart(i));
    InvAcksBounded(cfg, sc, s);
    TracedStable(h, s'.hist, x.log);
    TracedSorted(cfg, sc, s, x.log);
    forall y | y in h.counted[i] ensures Covers(s'.hist, x.log, T, y) {
      assert PartOk(cfg, sc, s, VotePart(T, y));
      CoversStable(h, s'.hist, i, T, x.log, T, y);
    }
  }

  // The winner's acknowledgement of its own log adds nothing to keep.
  lemma WinnerKeeps(h: History, h': History, log: seq<LogEntry>, i: nat, T: nat, bound: nat)
    requires HistGrows(h, h') && AcksBounded(h) && Keeps(h, log, i, bound) && T !in h.elections
    requires T in h'.elections && h'.elections == h.elections[T := Election(i, h'.elections[T].voters, log, log)]
    requires h'.acks == h.acks[(T, i) := |log|]
    ensures Keeps(h', log, i, bound)
  {
    forall t, idx: nat | t in h'.elections ensures KeepsAt(h', log, i, bound, t, idx) {
      if t != T && idx <= Ack(h', t, i) {
        assert KeepsAt(h, log, i, bound, t, idx);
        if Overtaken(h, t, idx, bound) {
          OvertakenStable(h, h', t, idx, bound, bound);
        }
      }
    }
  }

  lemma WinnerNode(cfg: Config, sc: Scope, s: State, i: nat, s': State)
    requires Inv(cfg, sc, s) && Wins(cfg, s, i, s')
    ensures NodesOk(cfg, sc, s')
  {
    var x := s.nodes[i];
    assert NodeOk(cfg, sc, s, i) by { assert PartOk(cfg, sc, s, NodePart(i)); }
    assert LeaderOk(cfg, s', i) && CandidateOk(cfg, s', i);
    assert sc.Logs? || NodeMatch(cfg, s', i);
    assert NodeLog(cfg, s', i) by { TracedStable(s.hist, s'.hist, x.log); }
    assert Keeps(s'.hist, s'.nodes[i].log, i, Bound(s', i)) by {
      InvAcksBounded(cfg, sc, s);
      WinnerKeeps(s.hist, s'.hist, x.log, i, x.term, Bound(s, i));
    }
    if sc.Commits? {
      CertifiedStable(cfg.n, s.hist, s'.hist, x.log, x.log, x.commitIndex, x.term, x.term);
    }
    NodesStable(cfg, sc, s, s', i);
  }

  lemma LeaderTaskKeeps(cfg: Config, sc: Scope, s: State, i: nat, s': State)
    requires Inv(cfg, sc, s) && i < cfg.n && s.nodes[i].leaderTasks > 0
    requires var x := s.nodes[i];
             x.role.Leader? || (x.role.Candidate? && x.votesReceived >= ElectionQuorum(cfg.n))
    requires LeaderTaskEffect(cfg, s, i, s')
    ensures Inv(cfg, sc, s') && LocalStep(cfg, s, s', i)
  {
    if s.nodes[i].role.Leader? {
      LeaderAgainKeeps(cfg, sc, s, i, s');
    } else {
      assert CandidateOk(cfg, s, i) by { assert PartOk(cfg, sc, s, NodePart(i)); }
      FirstWin(cfg, sc, s, i);
      WinnerStep(cfg, sc, s, i, s');
      WinnerElection(cfg, sc, s, i, s');
      WinnerNode(cfg, sc, s, i, s');
      InvFromLocal(cfg, sc, s, s', i);
    }
  }

  // ---- votes ----

  ghost predicate RequestVoteEffect(cfg: Config, s: State, m: Msg, s': State)
    requires Shape(cfg, s) && m.RequestVote? && m.dst < cfg.n
  {
    var i, h := m.dst, s.hist;
    var x, out := s.nodes[i], OnRequestVote(i, s.nodes[i], m);
    var y := out.node;
    && Shape(cfg, s') && s'.nodes == s.nodes[i := y] && s.net <= s'.net
    && (forall r :: r in s'.net && r !in s.net ==> r in out.sent)
    && s'.hist == h.(votes := if |out.sent| == 1 && out.sent[0].granted then h.votes[(y.term, i) := m.src] else h.votes,
                     counted := h.counted[i := if y.term != x.term then {} else h.counted[i]],
                     heard := h.heard[i := y.term == x.term && h.heard[i]])
  }

  lemma RequestVoteStep(cfg: Config, s: State, e: Event)
    requires Enabled(cfg, s, e) && e.Deliver? && e.m.RequestVote?
    ensures RequestVoteEffect(cfg, s, e.m, Step(cfg, s, e))
  {
    ShapeStep(cfg, s, e);
  }

  // A replica never votes for two candidates in a term.
  lemma RequestVoteLocal(cfg: Config, sc: Scope, s: State, m: Msg, s': State)
    requires Inv(cfg, sc, s) && m.RequestVote? && m.dst < cfg.n && m in s.net
    requires GrantsInTerm(s.nodes[m.dst], m) ==> !s.hist.heard[m.dst]
    requires RequestVoteEffect(cfg, s, m, s')
    ensures LocalStep(cfg, s, s', m.dst)
  {
    var k := (s'.nodes[m.dst].term, m.dst);
    if k in s.hist.votes {
      assert PartOk(cfg, sc, s, VotePart(k.0, k.1));
    }
  }

  lemma RequestVoteNode(cfg: Config, sc: Scope, s: State, m: Msg, s': State)
    requires Inv(cfg, sc, s) && m.RequestVote? && m.dst < cfg.n
    requires RequestVoteEffect(cfg, s, m, s') && LocalStep(cfg, s, s', m.dst)
    ensures NodesOk(cfg, sc, s')
  {
    var i := m.dst;
    SameLog(cfg, sc, s, s', i);
    assert NodeOk(cfg, sc, s, i) by { assert PartOk(cfg, sc, s, NodePart(i)); }
    assert LeaderOk(cfg, s', i);
    assert CandidateOk(cfg, s', i);
    NodesStable(cfg, sc, s, s', i);
  }

  lemma GrantOk(cfg: Config, sc: Scope, s: State, m: Msg, s': State)
    requires Inv(cfg, sc, s) && m.RequestVote? && !m.isPetition && m.dst < cfg.n && m in s.net
    requires m.term == s.nodes[m.dst].term ==> !s.hist.heard[m.dst]
    requires RequestVoteEffect(cfg, s, m, s') && LocalStep(cfg, s, s', m.dst)
    requires m.term >= s.nodes[m.dst].term && OnRequestVote(m.dst, s.nodes[m.dst], m).sent[0].granted
    ensures VoteOk(cfg, s', m.term, m.dst)
  {
    var i, c, T := m.dst, m.src, m.term;
    assert PartOk(cfg, sc, s, MsgPart(m));
    if s'.nodes[c].term == T && s'.nodes[c].role.Candidate? {
      assert PartOk(cfg, sc, s, NodePart(i)) && PartOk(cfg, sc, s, NodePart(c));
      GrantCovers(cfg, sc, s, s.nodes[i].log, s.nodes[c].log, i, Bound(s, i), T);
      InvAcksBounded(cfg, sc, s);
      CoversStable(s.hist, s'.hist, i, T, s.nodes[c].log, T, i);
    }
  }

  lemma RequestVoteKeeps(cfg: Config, sc: Scope, s: State, m: Msg, s': State)
    requires Inv(cfg, sc, s) && m.RequestVote? && m.dst < cfg.n && m in s.net
    requires GrantsInTerm(s.nodes[m.dst], m) ==> !s.hist.heard[m.dst]
    requires RequestVoteEffect(cfg, s, m, s')
    ensures Inv(cfg, sc, s') && LocalStep(cfg, s, s', m.dst)
  {
    var i := m.dst;
    var out := OnRequestVote(i, s.nodes[i], m);
    RequestVoteLocal(cfg, sc, s, m, s');
    RequestVoteNode(cfg, sc, s, m, s');
    if |out.sent| == 1 && out.sent[0].granted {
      GrantOk(cfg, sc, s, m, s');
    }
    InvFromLocal(cfg, sc, s, s', i);
  }

  ghost predicate VoteResponseEffect(cfg: Config, s: State, m: Msg, s': State)
    requires Shape(cfg, s) && m.VoteResponse? && m.dst < cfg.n
  {
    var i, h := m.dst, s.hist;
    var x, y := s.nodes[i], OnVoteResponse(cfg, s.nodes[i], m).node;
    && Shape(cfg, s') && s'.nodes == s.nodes[i := y] && s'.net == s.net
    && s'.hist == h.(counted := h.counted[i :=
                       if y.term != x.term then {}
                       else if x.role.Candidate? && m.term <= x.term && m.granted then h.counted[i] + {m.src}
                       else h.counted[i]],
                     heard := h.heard[i := y.term == x.term && h.heard[i]])
  }

  lemma VoteResponseStep(cfg: Config, s: State, e: Event)
    requires Enabled(cfg, s, e) && e.Deliver? && e.m.VoteResponse?
    ensures VoteResponseEffect(cfg, s, e.m, Step(cfg, s, e))
  {
    ShapeStep(cfg, s, e);
  }

  lemma VoteResponseNode(cfg: Config, sc: Scope, s: State, m: Msg, s': State)
    requires Inv(cfg, sc, s) && m.VoteResponse? && m.dst < cfg.n && m in s.net
    requires s.nodes[m.dst].role.Candidate? && m.granted && m.term <= s.nodes[m.dst].term ==>
               m.term == s.nodes[m.dst].term && m.src !in s.hist.counted[m.dst]
    requires VoteResponseEffect(cfg, s, m, s')
    ensures LeaderOk(cfg, s', m.dst) && CandidateOk(cfg, s', m.dst) && (sc.Logs? || NodeMatch(cfg, s', m.dst))
  {
    var i := m.dst;
    assert PartOk(cfg, sc, s, MsgPart(m));
    assert NodeOk(cfg, sc, s, i) by { assert PartOk(cfg, sc, s, NodePart(i)); }
  }

  lemma VoteResponseKeeps(cfg: Config, sc: Scope, s: State, m: Msg, s': State)
    requires Inv(cfg, sc, s) && m.VoteResponse? && m.dst < cfg.n && m in s.net
    requires s.nodes[m.dst].role.Candidate? && m.granted && m.term <= s.nodes[m.dst].term ==>
               m.term == s.nodes[m.dst].term && m.src !in s.hist.counted[m.dst]
    requires VoteResponseEffect(cfg, s, m, s')
    ensures Inv(cfg, sc, s') && LocalStep(cfg, s, s', m.dst)
  {
    VoteResponseNode(cfg, sc, s, m, s');
    SameLog(cfg, sc, s, s', m.dst);
    NodesStable(cfg, sc, s, s', m.dst);
    InvFromLocal(cfg, sc, s, s', m.dst);
  }

  // ---- AppendEntries ----

  ghost predicate AppendEffect(cfg: Config, s: State, m: Msg, s': State)
    requires Shape(cfg, s) && m.AppendEntries? && m.dst < cfg.n
  {
    var i, h := m.dst, s.hist;
    var x, out := s.nodes[i], OnAppendEntries(i, s.nodes[i], m);
    && Shape(cfg, s') && s'.nodes == s.nodes[i := out.node] && s.net <= s'.net
    && (forall r :: r in s'.net && r !in s.net ==> r in out.sent)
    && s'.hist == h.(acks := if !Takes(x, m) then h.acks
                             else h.acks[(m.term, i) := Max(Ack(h, m.term, i), m.prevLogIndex + |m.entries|)],
                     counted := h.counted[i := if out.node.term != x.term then {} else h.counted[i]],
                     heard := h.heard[i := Hears(x, m) || (out.node.term == x.term && h.heard[i])])
  }

  lemma AppendStep(cfg: Config, s: State, e: Event)
    requires Enabled(cfg, s, e) && e.Deliver? && e.m.AppendEntries?
    ensures AppendEffect(cfg, s, e.m, Step(cfg, s, e))
  {
    ShapeStep(cfg, s, e);
  }

  lemma AppendLocal(cfg: Config, sc: Scope, s: State, m: Msg, s': State)
    requires Inv(cfg, sc, s) && m.AppendEntries? && m.dst < cfg.n && AppendEffect(cfg, s, m, s')
    ensures LocalStep(cfg, s, s', m.dst)
  {
  }

  // Rejected, stale and self-sent messages leave the log alone.
  lemma AppendRejectedKeeps(cfg: Config, sc: Scope, s: State, m: Msg, s': State)
    requires Inv(cfg, sc, s) && m.AppendEntries? && m.dst < cfg.n && AppendEffect(cfg, s, m, s')
    requires !Takes(s.nodes[m.dst], m)
    ensures Inv(cfg, sc, s') && LocalStep(cfg, s, s', m.dst)
  {
    var i := m.dst;
    AppendLocal(cfg, sc, s, m, s');
    SameLog(cfg, sc, s, s', i);
    assert NodeOk(cfg, sc, s, i) by { assert PartOk(cfg, sc, s, NodePart(i)); }
    assert LeaderOk(cfg, s', i);
    assert CandidateOk(cfg, s', i);
    NodesStable(cfg, sc, s, s', i);
    InvFromLocal(cfg, sc, s, s', i);
  }

  // The log r that splicing made of `log` with the first q entries of term T's
  // log: it agrees with them and keeps whatever agreed before.
  ghost predicate FromLeader(h: History, T: nat, log: seq<LogEntry>, q: nat, r: seq<LogEntry>) {
    && T in h.elections && q <= |h.elections[T].log|
    && Agree(r, h.elections[T].log, q)
    && (r == log || r == h.elections[T].log[..q])
    && forall idx: nat :: Agree(log, h.elections[T].log, idx) ==> Agree(r, h.elections[T].log, idx)
  }

  lemma SpliceFromLeader(cfg: Config, sc: Scope, s: State, m: Msg)
    requires Inv(cfg, sc, s) && m.AppendEntries? && m.dst < cfg.n && m in s.net && Takes(s.nodes[m.dst], m)
    ensures var x := s.nodes[m.dst];
            && FromLeader(s.hist, m.term, x.log, m.prevLogIndex + |m.entries|, Splice(x.log, m.prevLogIndex, m.entries))
            && Traced(s.hist, x.log) && Traced(s.hist, s.hist.elections[m.term].log)
            && (sc.Commits? ==> m.leaderCommit <= |s.hist.elections[m.term].log|)
  {
    var x := s.nodes[m.dst];
    assert MsgOk(cfg, sc, s, m) by { assert PartOk(cfg, sc, s, MsgPart(m)); }
    assert Traced(s.hist, x.log) by { assert PartOk(cfg, sc, s, NodePart(m.dst)); }
    var log, prev := s.hist.elections[m.term].log, m.prevLogIndex;
    assert Traced(s.hist, log) by { assert PartOk(cfg, sc, s, TermPart(m.term)); }
    TracedMatch(s.hist, x.log, log);
    if prev >= 1 {
      assert m.prevLogTerm >= 1 by {
        assert TracedAt(s.hist, x.log, prev - 1);
        assert PartOk(cfg, sc, s, TermPart(m.prevLogTerm));
      }
      assert Agree(x.log, log, (prev - 1) + 1);
    }
    SpliceOutcome(x.log, prev, m.entries, log);
  }

  lemma SplicedTraced(h: History, T: nat, log: seq<LogEntry>, q: nat, r: seq<LogEntry>)
    requires FromLeader(h, T, log, q, r) && Traced(h, log) && Traced(h, h.elections[T].log)
    ensures Traced(h, r)
  {
    TracedPrefix(h, h.elections[T].log, q);
  }

  // Through which index the spliced log is the sender's can be told from one entry.
  lemma SharedThrough(h: History, T: nat, log: seq<LogEntry>, q: nat, r: seq<LogEntry>, c: nat)
    requires FromLeader(h, T, log, q, r) && Traced(h, log) && Traced(h, h.elections[T].log)
    requires 1 <= c <= |r| && c <= |h.elections[T].log|
    ensures Agree(r, h.elections[T].log, c) <==> r[c - 1].term == h.elections[T].log[c - 1].term
    ensures c <= q || r[c - 1].term == T ==> Agree(r, h.elections[T].log, c)
  {
    SplicedTraced(h, T, log, q, r);
    TracedMatch(h, r, h.elections[T].log);
    assert TracedAt(h, r, c - 1);
    assert r[c - 1].term == h.elections[T].log[c - 1].term ==> Agree(r, h.elections[T].log, (c - 1) + 1);
  }

  // The commit index c that an accepted message gives is right, the follower's
  // log being the sender's through c, if and only if the two entries at c are of
  // one term.  What the follower can test without seeing the sender's entry
  // suffices, and assumption A6 is exact.
  lemma TakenOverIff(cfg: Config, s: State, m: Msg)
    requires Inv(cfg, Commits, s) && m.AppendEntries? && m.dst < cfg.n && m in s.net && Takes(s.nodes[m.dst], m)
    ensures m.term in s.hist.elections && m.leaderCommit <= |s.hist.elections[m.term].log|
    ensures var x, theirs := s.nodes[m.dst], s.hist.elections[m.term].log;
            var log := Splice(x.log, m.prevLogIndex, m.entries);
            var c := Min(m.leaderCommit, |log|);
            && (Agree(log, theirs, c) <==> c == 0 || log[c - 1].term == theirs[c - 1].term)
            && (Vouched(m, log, c) ==> Agree(log, theirs, c))
            && (m.leaderCommit > x.commitIndex ==> (CommitIsVouched(s, Deliver(m, map[])) <==> Agree(log, theirs, c)))
  {
    assert m.term in s.hist.elections && m.leaderCommit <= |s.hist.elections[m.term].log| by {
      SpliceFromLeader(cfg, Commits, s, m);
    }
    var x, theirs := s.nodes[m.dst], s.hist.elections[m.term].log;
    var log := Splice(x.log, m.prevLogIndex, m.entries);
    var c := Min(m.leaderCommit, |log|);
    assert (Agree(log, theirs, c) <==> c == 0 || SharesTerm(s.hist, m, log, c))
        && (Vouched(m, log, c) ==> Agree(log, theirs, c)) by {
      if c > 0 {
        SpliceFromLeader(cfg, Commits, s, m);
        SharedThrough(s.hist, m.term, x.log, m.prevLogIndex + |m.entries|, log, c);
      }
    }
  }

  // What an accepted message does, in terms of the history.
  ghost predicate TakenEffect(h: History, h': History, i: nat, T: nat, q: nat) {
    && h'.elections == h.elections && h'.acks == h.acks[(T, i) := Max(Ack(h, T, i), q)]
    && HistGrows(h, h') && T in h.elections && ElectionLog(h, T)
  }

  lemma TakenKeepsAt(h: History, h': History, i: nat, T: nat, q: nat, log: seq<LogEntry>, r: seq<LogEntry>, bound: nat,
                     t: nat, idx: nat)
    requires TakenEffect(h, h', i, T, q) && FromLeader(h, T, log, q, r) && AcksBounded(h) && bound <= T + 1
    requires t in h.elections && ((t, i) in h.acks ==> t <= T) && KeepsAt(h, log, i, bound, t, idx)
    ensures KeepsAt(h', r, i, T + 1, t, idx)
  {
    if 0 < idx <= Ack(h, t, i) {
      if Overtaken(h, t, idx, bound) {
        OvertakenStable(h, h', t, idx, bound, T + 1);
      } else if t < T {
        StillHolds(h, log, r, T, t, idx);
        assert Misses(h, T, t, idx) ==> Misses(h', T, t, idx);
      }
    }
  }

  // Entries of an older term survive unless the sender's term was won without them.
  lemma StillHolds(h: History, log: seq<LogEntry>, r: seq<LogEntry>, T: nat, t: nat, idx: nat)
    requires T in h.elections && t in h.elections && ElectionLog(h, T)
    requires Agree(log, h.elections[t].log, idx)
    requires Agree(log, h.elections[T].log, idx) ==> Agree(r, h.elections[T].log, idx)
    ensures Agree(r, h.elections[t].log, idx) || Misses(h, T, t, idx)
  {
  }

  ghost predicate TermsUpTo(log: seq<LogEntry>, T: nat) {
    forall k :: 0 <= k < |log| ==> log[k].term <= T
  }

  lemma TakenLog(h: History, h': History, i: nat, T: nat, q: nat, log: seq<LogEntry>, r: seq<LogEntry>)
    requires TakenEffect(h, h', i, T, q) && FromLeader(h, T, log, q, r) && Traced(h, log) && TermsUpTo(log, T)
    ensures Traced(h', r) && TermsUpTo(r, T)
  {
    TracedStable(h, h', log);
    TracedStable(h, h', h.elections[T].log);
    SplicedTraced(h', T, log, q, r);
  }

  lemma TracedPrefix(h: History, log: seq<LogEntry>, q: nat)
    requires Traced(h, log) && q <= |log|
    ensures Traced(h, log[..q])
  {
    forall k | 0 <= k < q ensures TracedAt(h, log[..q], k) {
      assert TracedAt(h, log, k);
    }
  }

  lemma CertifiedShorter(n: nat, h: History, log: seq<LogEntry>, c: nat, c': nat, bound: nat)
    requires Certified(n, h, log, c, bound) && c' <= c
    ensures Certified(n, h, log, c', bound)
  {
    if c' > 0 {
      var t: nat, idx: nat :| CertifiedBy(n, h, log, c, bound, t, idx);
      assert CertifiedBy(n, h, log, c', bound, t, idx);
    }
  }

  // The commit index a follower takes over is certified ...
  lemma CommitTakenOver(n: nat, h: History, h': History, m: Msg, log: seq<LogEntry>, r: seq<LogEntry>, c: nat)
    requires m.AppendEntries? && m.prevLogIndex >= 0 && c == Min(m.leaderCommit, |r|)
    requires var q := m.prevLogIndex + |m.entries|;
             TakenEffect(h, h', m.dst, m.term, q) && FromLeader(h, m.term, log, q, r) && Traced(h, log)
    requires Certified(n, h, h.elections[m.term].log, m.leaderCommit, m.term)
    requires Vouched(m, r, c) || SharesTerm(h, m, r, c)
    ensures Certified(n, h', r, c, m.term)
  {
    var theirs := h.elections[m.term].log;
    if c > 0 {
      SharedThrough(h, m.term, log, m.prevLogIndex + |m.entries|, r, c);
    }
    CertifiedShorter(n, h, theirs, m.leaderCommit, c, m.term);
    CertifiedStable(n, h, h', theirs, r, c, m.term, m.term);
  }

  // ... and so stays the one it had.
  lemma CommitKept(cfg: Config, sc: Scope, s: State, h': History, i: nat, T: nat, q: nat, log: seq<LogEntry>,
                   r: seq<LogEntry>, c: nat, bound: nat)
    requires Inv(cfg, sc, s) && TakenEffect(s.hist, h', i, T, q) && FromLeader(s.hist, T, log, q, r)
    requires Certified(cfg.n, s.hist, log, c, bound) && bound <= T
    ensures Certified(cfg.n, h', r, c, T)
  {
    CertifiedInLater(cfg, sc, s, log, c, bound, T);
    CertifiedStable(cfg.n, s.hist, h', log, r, c, bound, T);
  }

  // What an accepted message does to its receiver.
  ghost predicate Taken(cfg: Config, sc: Scope, s: State, m: Msg, s': State)
    requires m.AppendEntries?
  {
    && Shape(cfg, s) && Shape(cfg, s') && m.dst < cfg.n && m.prevLogIndex >= 0
    && var i, q := m.dst, m.prevLogIndex + |m.entries|;
       var x, y := s.nodes[i], s'.nodes[i];
       && x.term <= m.term == y.term && y.role.Follower? && Bound(s', i) == m.term + 1
       && y.nextIndex == x.nextIndex && y.matchIndex == x.matchIndex
       && TakenEffect(s.hist, s'.hist, i, m.term, q) && FromLeader(s.hist, m.term, x.log, q, y.log)
       && (sc.Commits? ==> Certified(cfg.n, s.hist, s.hist.elections[m.term].log, m.leaderCommit, m.term))
       && Takes(x, m) && y.log == Splice(x.log, m.prevLogIndex, m.entries)
       && y.commitIndex == if m.leaderCommit > x.commitIndex then Min(m.leaderCommit, |y.log|) else x.commitIndex
  }

  lemma AppendTaken(cfg: Config, sc: Scope, s: State, m: Msg, s': State)
    requires Inv(cfg, sc, s) && m.AppendEntries? && m.dst < cfg.n && m in s.net && AppendEffect(cfg, s, m, s')
    requires Takes(s.nodes[m.dst], m) && LocalStep(cfg, s, s', m.dst)
    ensures Taken(cfg, sc, s, m, s')
  {
    assert PartOk(cfg, sc, s, MsgPart(m));
    SpliceFromLeader(cfg, sc, s, m);
    assert ElectionLog(s.hist, m.term) by { assert PartOk(cfg, sc, s, TermPart(m.term)); }
  }

  lemma TakenKeeps(cfg: Config, sc: Scope, s: State, m: Msg, s': State)
    requires Inv(cfg, sc, s) && m.AppendEntries? && Taken(cfg, sc, s, m, s')
    ensures Keeps(s'.hist, s'.nodes[m.dst].log, m.dst, Bound(s', m.dst))
  {
    var i, q, bound := m.dst, m.prevLogIndex + |m.entries|, m.term + 1;
    var h, h', x, r := s.hist, s'.hist, s.nodes[i], s'.nodes[i].log;
    InvAcksBounded(cfg, sc, s);
    assert Keeps(h, x.log, i, Bound(s, i)) by { assert PartOk(cfg, sc, s, NodePart(i)); }
    forall t, idx: nat | t in h'.elections ensures KeepsAt(h', r, i, bound, t, idx) {
      assert (t, i) in h.acks ==> PartOk(cfg, sc, s, AckPart(t, i));
      assert KeepsAt(h, x.log, i, Bound(s, i), t, idx);
      TakenKeepsAt(h, h', i, m.term, q, x.log, r, Bound(s, i), t, idx);
    }
  }

  lemma TakenCommit(cfg: Config, s: State, m: Msg, s': State)
    requires Inv(cfg, Commits, s) && m.AppendEntries? && Taken(cfg, Commits, s, m, s')
    requires CommitIsVouched(s, Deliver(m, map[]))
    ensures NodeCommit(cfg, s', m.dst)
  {
    var i, q := m.dst, m.prevLogIndex + |m.entries|;
    var x, y := s.nodes[i], s'.nodes[i];
    assert NodeOk(cfg, Commits, s, i) by { assert PartOk(cfg, Commits, s, NodePart(i)); }
    if m.leaderCommit > x.commitIndex {
      CommitTakenOver(cfg.n, s.hist, s'.hist, m, x.log, y.log, y.commitIndex);
    } else {
      CommitKept(cfg, Commits, s, s'.hist, i, m.term, q, x.log, y.log, x.commitIndex, x.term);
    }
  }

  lemma TakenLogOk(cfg: Config, sc: Scope, s: State, m: Msg, s': State)
    requires Inv(cfg, sc, s) && m.AppendEntries? && Taken(cfg, sc, s, m, s')
    ensures NodeLog(cfg, s', m.dst)
  {
    var i := m.dst;
    assert NodeLog(cfg, s, i) by { assert PartOk(cfg, sc, s, NodePart(i)); }
    TakenLog(s.hist, s'.hist, i, m.term, m.prevLogIndex + |m.entries|, s.nodes[i].log, s'.nodes[i].log);
  }

  lemma AppendTakenKeeps(cfg: Config, sc: Scope, s: State, m: Msg, s': State)
    requires Inv(cfg, sc, s) && m.AppendEntries? && m.dst < cfg.n && m in s.net && AppendEffect(cfg, s, m, s')
    requires Takes(s.nodes[m.dst], m)
    requires Taken(cfg, sc, s, m, s') && NodeOk(cfg, sc, s', m.dst) && LocalStep(cfg, s, s', m.dst)
    ensures Inv(cfg, sc, s')
  {
    InvAcksBounded(cfg, sc, s);
    NodesStable(cfg, sc, s, s', m.dst);
    InvFromLocal(cfg, sc, s, s', m.dst);
  }

  lemma AppendKeeps(cfg: Config, sc: Scope, s: State, m: Msg, s': State)
    requires Inv(cfg, sc, s) && m.AppendEntries? && m.dst < cfg.n && m in s.net && AppendEffect(cfg, s, m, s')
    requires sc.Commits? && Takes(s.nodes[m.dst], m) ==> CommitIsVouched(s, Deliver(m, map[]))
    ensures Inv(cfg, sc, s') && LocalStep(cfg, s, s', m.dst)
  {
    if Takes(s.nodes[m.dst], m) {
      AppendLocal(cfg, sc, s, m, s');
      AppendTaken(cfg, sc, s, m, s');
      assert NodeOk(cfg, sc, s', m.dst) by {
        TakenLogOk(cfg, sc, s, m, s');
        if sc.Commits? {
          TakenCommit(cfg, s, m, s');
        }
        TakenKeeps(cfg, sc, s, m, s');
        assert NodeOk(cfg, sc, s, m.dst) by { assert PartOk(cfg, sc, s, NodePart(m.dst)); }
      }
      AppendTakenKeeps(cfg, sc, s, m, s');
    } else {
      AppendRejectedKeeps(cfg, sc, s, m, s');
    }
  }

  // ---- acknowledgements ----

  ghost predicate ResponseEffect(cfg: Config, s: State, m: Msg, s': State)
    requires Shape(cfg, s) && m.AppendResponse? && m.dst < cfg.n && m.src < cfg.n
  {
    var i, h := m.dst, s.hist;
    var x, y := s.nodes[i], OnAppendResponse(cfg, s.nodes[i], m).node;
    && Shape(cfg, s') && s'.nodes == s.nodes[i := y] && s'.net == s.net
    && s'.hist == h.(counted := h.counted[i := if y.term != x.term then {} else h.counted[i]],
                     heard := h.heard[i := y.term == x.term && h.heard[i]])
  }

  lemma ResponseStep(cfg: Config, s: State, e: Event)
    requires Enabled(cfg, s, e) && e.Deliver? && e.m.AppendResponse?
    ensures ResponseEffect(cfg, s, e.m, Step(cfg, s, e))
  {
    ShapeStep(cfg, s, e);
  }

  // The replicas a leader counts, itself included, acknowledged the entry.
  lemma CommittableIsCommitted(cfg: Config, s: State, i: nat, x: NodeState, c: nat)
    requires Shape(cfg, s) && i < cfg.n && Sized(cfg, x) && Committable(cfg, x, c)
    requires x.term in s.hist.elections && s.hist.elections[x.term].log == x.log
    requires Ack(s.hist, x.term, i) == |x.log| && x.matchIndex[i] == 0
    requires forall f :: 0 <= f < cfg.n && f != i ==> x.matchIndex[f] <= Ack(s.hist, x.term, f)
    ensures Committed(cfg.n, s.hist, x.term, c)
  {
    var counted := Replicas(x.matchIndex, c) + {i};
    assert i !in Replicas(x.matchIndex, c);
    var acked := AckSet(cfg.n, s.hist, x.term, c);
    assert counted <= acked;
    SubsetSize(counted, acked);
  }

  lemma ResponseNode(cfg: Config, sc: Scope, s: State, m: Msg, s': State)
    requires Inv(cfg, sc, s) && m.AppendResponse? && m.dst < cfg.n && m.src < cfg.n && m in s.net
    requires sc.Logs? || NotStale(s.nodes[m.dst], m)
    requires ResponseEffect(cfg, s, m, s')
    ensures LeaderOk(cfg, s', m.dst) && CandidateOk(cfg, s', m.dst) && (sc.Logs? || NodeMatch(cfg, s', m.dst))
  {
    var i := m.dst;
    assert PartOk(cfg, sc, s, MsgPart(m));
    assert NodeOk(cfg, sc, s, i) by { assert PartOk(cfg, sc, s, NodePart(i)); }
    if (s.nodes[i].term, m.src) in s.hist.acks {
      assert PartOk(cfg, sc, s, AckPart(s.nodes[i].term, m.src));
    }
  }

  lemma ResponseCommit(cfg: Config, s: State, m: Msg, s': State)
    requires Inv(cfg, Commits, s) && m.AppendResponse? && m.dst < cfg.n && m.src < cfg.n && m in s.net
    requires m.success && s.nodes[m.dst].role.Leader? && m.term <= s.nodes[m.dst].term && NotStale(s.nodes[m.dst], m)
    requires ResponseEffect(cfg, s, m, s')
    ensures NodeCommit(cfg, s', m.dst)
  {
    var i := m.dst;
    var x, y := s.nodes[i], Matched(s.nodes[i], m.src, m.matchIndex);
    var c := NewCommit(cfg, y);
    assert NodeOk(cfg, Commits, s, i) by { assert PartOk(cfg, Commits, s, NodePart(i)); }
    assert PartOk(cfg, Commits, s, MsgPart(m));
    if c > x.commitIndex {
      CommittableIsCommitted(cfg, s', i, y, c);
      assert CertifiedBy(cfg.n, s'.hist, x.log, c, x.term, x.term, c);
    } else {
      CertifiedStable(cfg.n, s.hist, s'.hist, x.log, x.log, c, x.term, x.term);
    }
  }

  lemma ResponseKeeps(cfg: Config, sc: Scope, s: State, m: Msg, s': State)
    requires Inv(cfg, sc, s) && m.AppendResponse? && m.dst < cfg.n && m.src < cfg.n && m in s.net
    requires sc.Logs? || NotStale(s.nodes[m.dst], m)
    requires ResponseEffect(cfg, s, m, s')
    ensures Inv(cfg, sc, s') && LocalStep(cfg, s, s', m.dst)
  {
    var i := m.dst;
    ResponseNode(cfg, sc, s, m, s');
    SameLog(cfg, sc, s, s', i);
    if sc.Commits? && s'.nodes[i].commitIndex != s.nodes[i].commitIndex {
      ResponseCommit(cfg, s, m, s');
    }
    NodesStable(cfg, sc, s, s', i);
    InvFromLocal(cfg, sc, s, s', i);
  }

  // ---- all events ----

  lemma StepKeeps(cfg: Config, sc: Scope, s: State, e: Event)
    requires Inv(cfg, sc, s) && Enabled(cfg, s, e) && Admitted(sc, s, e)
    ensures Inv(cfg, sc, Step(cfg, s, e)) && LocalStep(cfg, s, Step(cfg, s, e), Actor(e))
  {
    var s' := Step(cfg, s, e);
    match e
    case Timeout(i) =>
      if MayStand(cfg, i, s.nodes[i]) {
        StandStep(cfg, s, e);
        StandKeeps(cfg, sc, s, i, s');
      } else {
        BystanderEventKeeps(cfg, sc, s, e);
      }
    case LeaderTask(i) => LeaderTaskStep(cfg, s, e); LeaderTaskKeeps(cfg, sc, s, i, s');
    case Heartbeat(_) => HeartbeatKeeps(cfg, sc, s, e);
    case Failure(_) => BystanderEventKeeps(cfg, sc, s, e);
    case PenaltyTimer(_, _, _) => BystanderEventKeeps(cfg, sc, s, e);
    case ClientRequest(_, _, _, _, _) => ClientRequestStep(cfg, s, e); ClientRequestKeeps(cfg, sc, s, e, s');
    case Deliver(m, _) =>
      match m
      case RequestVote(_, _, _, _, _, _) => RequestVoteStep(cfg, s, e); RequestVoteKeeps(cfg, sc, s, m, s');
      case VoteResponse(_, _, _, _) => VoteResponseStep(cfg, s, e); VoteResponseKeeps(cfg, sc, s, m, s');
      case AppendEntries(_, _, _, _, _, _, _) => AppendStep(cfg, s, e); AppendKeeps(cfg, sc, s, m, s');
      case AppendResponse(_, _, _, _, _) => ResponseStep(cfg, s, e); ResponseKeeps(cfg, sc, s, m, s');
      case Petition(_, _, _, _, _, _) => BystanderEventKeeps(cfg, sc, s, e);
  }
}
