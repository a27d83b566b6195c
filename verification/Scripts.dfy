// Building blocks for concrete runs.
module Scripts {
  import opened Types
  import opened LogOps
  import opened Batcher
  import opened Handlers
  import opened Cluster

  // The one assumption a run is allowed to break.
  datatype Waived = NoneWaived | A2 | A3 | A4 | A5 | A6

  ghost predicate AdmittedBut(s: State, e: Event, w: Waived)
    requires Actor(e) < |s.nodes| && Actor(e) < |s.hist.counted|
    requires Actor(e) < |s.hist.heard|
  {
    && (w.A2? || VotesCountedOnce(s, e))
    && (w.A3? || NoVoteAfterLeader(s, e))
    && (w.A4? || TaskIsFresh(s, e))
    && (w.A5? || NoStaleSuccess(s, e))
    && (w.A6? || CommitIsVouched(s, e))
  }

  ghost predicate IsRunBut(cfg: Config, states: seq<State>, events: seq<Event>, w: Waived) {
    && IsRun(cfg, states, events)
    && forall k {:trigger StepAt(cfg, states, events, k)} :: 0 <= k < |events| ==>
         StepAt(cfg, states, events, k) && AdmittedBut(states[k], events[k], w)
  }

  ghost predicate EndsIn(cfg: Config, states: seq<State>, events: seq<Event>, w: Waived, s: State) {
    IsRunBut(cfg, states, events, w) && states[|events|] == s && Shape(cfg, s)
  }

  // Some run that breaks at most the waived assumption ends in s.
  ghost predicate Reaches(cfg: Config, w: Waived, s: State) {
    exists states, events :: EndsIn(cfg, states, events, w, s)
  }

  lemma Begin(cfg: Config, w: Waived)
    ensures Reaches(cfg, w, Init(cfg))
  {
    assert EndsIn(cfg, [Init(cfg)], [], w, Init(cfg));
  }

  lemma PlayRun(cfg: Config, states: seq<State>, events: seq<Event>, w: Waived, s: State, e: Event)
    requires EndsIn(cfg, states, events, w, s) && Enabled(cfg, s, e) && AdmittedBut(s, e, w)
    ensures EndsIn(cfg, states + [Step(cfg, s, e)], events + [e], w, Step(cfg, s, e))
  {
    var states', events' := states + [Step(cfg, s, e)], events + [e];
    ShapeStep(cfg, s, e);
    forall k | 0 <= k < |states'| ensures Shape(cfg, states'[k]) {
      if k < |states| {
        assert Shape(cfg, states[k]) by { assert states[k].nodes == states[k].nodes; }
      }
    }
    forall k | 0 <= k < |events'|
      ensures StepAt(cfg, states', events', k) && AdmittedBut(states'[k], events'[k], w)
    {
      if k < |events| {
        assert StepAt(cfg, states, events, k);
        assert events'[k] == events[k] && states'[k] == states[k] && states'[k + 1] == states[k + 1];
      }
    }
  }

  lemma Play(cfg: Config, w: Waived, s: State, e: Event)
    requires Reaches(cfg, w, s) && Enabled(cfg, s, e) && AdmittedBut(s, e, w)
    ensures Reaches(cfg, w, Step(cfg, s, e))
  {
    var states, events :| EndsIn(cfg, states, events, w, s);
    PlayRun(cfg, states, events, w, s, e);
  }

  // What the scripts track of a state besides its messages.
  datatype Track = Track(nodes: seq<NodeState>, counted: seq<set<nat>>, heard: seq<bool>)

  function TrackOf(s: State): Track { Track(s.nodes, s.hist.counted, s.hist.heard) }

  function Ballot(i: nat, d: nat, x: NodeState): Msg {
    RequestVote(i, d, x.term, |x.log|, LastTerm(x.log), false)
  }

  ghost predicate Balloted(cfg: Config, s: State, i: nat) {
    && i < |s.nodes|
    && forall d {:trigger Ballot(i, d, s.nodes[i])} :: 0 <= d < cfg.n ==> Ballot(i, d, s.nodes[i]) in s.net
  }

  // Replica i's election timer fires.
  lemma Stand(cfg: Config, w: Waived, s: State, i: nat) returns (s': State)
    requires Reaches(cfg, w, s) && i < cfg.n && MayStand(cfg, i, s.nodes[i])
    ensures Reaches(cfg, w, s') && s.net <= s'.net && Balloted(cfg, s', i)
    ensures TrackOf(s') == Track(s.nodes[i := OnTimeout(cfg, i, s.nodes[i]).node], s.hist.counted[i := {}],
                                 s.hist.heard[i := false])
  {
    var e := Timeout(i);
    Play(cfg, w, s, e);
    s' := Step(cfg, s, e);
    var out := Handle(cfg, s, e);
    forall d | 0 <= d < cfg.n ensures Ballot(i, d, s'.nodes[i]) in s'.net {
      assert out.sent[d] in out.sent;
    }
  }

  ghost predicate Polls(cfg: Config, s: State, i: nat, v: nat) {
    && i < cfg.n && v < cfg.n && Shape(cfg, s) && Balloted(cfg, s, i)
    && var x, y := s.nodes[i], s.nodes[v];
       && x.role.Candidate? && UpToDate(LastTerm(x.log), |x.log|, y.log)
       && (y.term < x.term || (y.term == x.term && (y.votedFor.None? || y.votedFor == Some(i))))
  }

  // v's state after it voted for i
  function Voted(i: nat, x: NodeState, y: NodeState): NodeState {
    (if x.term > y.term then AdoptTerm(y, x.term).(leader := None) else y).(votedFor := Some(i))
  }

  // Voter v answers i's request.
  lemma Vote(cfg: Config, w: Waived, s: State, i: nat, v: nat) returns (s': State)
    requires Reaches(cfg, w, s) && Polls(cfg, s, i, v)
    requires w.A3? || s.nodes[v].term < s.nodes[i].term || !s.hist.heard[v]
    ensures Reaches(cfg, w, s') && s.net + {VoteResponse(v, i, s.nodes[i].term, true)} <= s'.net
    ensures var x, y, h := s.nodes[i], s.nodes[v], s.hist;
            TrackOf(s') == Track(s.nodes[v := Voted(i, x, y)],
                                 h.counted[v := if y.term < x.term then {} else h.counted[v]],
                                 h.heard[v := y.term == x.term && h.heard[v]])
  {
    var e := Deliver(Ballot(i, v, s.nodes[i]), map[]);
    Play(cfg, w, s, e);
    s' := Step(cfg, s, e);
    var out := Handle(cfg, s, e);
    assert out.sent == [VoteResponse(v, i, s.nodes[i].term, true)];
    assert out.sent[0] in out.sent;
  }

  function Counted(cfg: Config, x: NodeState): NodeState {
    var votes := x.votesReceived + 1;
    x.(votesReceived := votes,
       leaderTasks := if votes >= ElectionQuorum(cfg.n) then x.leaderTasks + 1 else x.leaderTasks)
  }

  // Candidate i counts v's vote.
  lemma Count(cfg: Config, w: Waived, s: State, i: nat, v: nat) returns (s': State)
    requires Reaches(cfg, w, s) && i < cfg.n && v < cfg.n && s.nodes[i].role.Candidate?
    requires VoteResponse(v, i, s.nodes[i].term, true) in s.net
    requires w.A2? || v !in s.hist.counted[i]
    ensures Reaches(cfg, w, s') && s.net <= s'.net
    ensures TrackOf(s') == Track(s.nodes[i := Counted(cfg, s.nodes[i])],
                                 s.hist.counted[i := s.hist.counted[i] + {v}], s.hist.heard)
  {
    var e := Deliver(VoteResponse(v, i, s.nodes[i].term, true), map[]);
    Play(cfg, w, s, e);
    s' := Step(cfg, s, e);
    assert s'.hist.heard == s.hist.heard;
  }

  // v votes and i counts it; i stays ready to be asked by others.
  lemma Poll(cfg: Config, w: Waived, s: State, i: nat, v: nat) returns (s': State)
    requires Reaches(cfg, w, s) && Polls(cfg, s, i, v)
    requires w.A3? || s.nodes[v].term < s.nodes[i].term || !s.hist.heard[v]
    requires v !in s.hist.counted[i]
    ensures Reaches(cfg, w, s') && s.net <= s'.net && Balloted(cfg, s', i)
    ensures var mid := s.nodes[v := Voted(i, s.nodes[i], s.nodes[v])];
            var counted := if s.nodes[v].term < s.nodes[i].term then s.hist.counted[v := {}] else s.hist.counted;
            TrackOf(s') == Track(mid[i := Counted(cfg, mid[i])], counted[i := s.hist.counted[i] + {v}],
                                 s.hist.heard[v := s.nodes[v].term == s.nodes[i].term && s.hist.heard[v]])
  {
    var s1 := Vote(cfg, w, s, i, v);
    s' := Count(cfg, w, s1, i, v);
    assert s1.hist.counted[i] == s.hist.counted[i];
    forall d | 0 <= d < cfg.n ensures Ballot(i, d, s'.nodes[i]) in s'.net {
      assert Ballot(i, d, s.nodes[i]) in s.net;
    }
  }

  // A queued become_leader runs.
  lemma TakeOffice(cfg: Config, w: Waived, s: State, i: nat) returns (s': State)
    requires Reaches(cfg, w, s) && i < cfg.n && s.nodes[i].leaderTasks > 0
    requires var x := s.nodes[i];
             w.A4? || x.role.Leader? || (x.role.Candidate? && x.votesReceived >= ElectionQuorum(cfg.n))
    ensures Reaches(cfg, w, s') && s.net <= s'.net
    ensures TrackOf(s') == Track(s.nodes[i := OnLeaderTask(cfg, i, s.nodes[i]).node], s.hist.counted, s.hist.heard)
  {
    var e := LeaderTask(i);
    Play(cfg, w, s, e);
    s' := Step(cfg, s, e);
    assert s'.hist.counted == s.hist.counted && s'.hist.heard == s.hist.heard;
  }

  // A leader's heartbeat timer fires.
  lemma Beat(cfg: Config, w: Waived, s: State, i: nat, d: nat) returns (s': State)
    requires Reaches(cfg, w, s) && i < cfg.n && d < cfg.n && s.nodes[i].role.Leader?
    ensures Reaches(cfg, w, s') && TrackOf(s') == TrackOf(s)
    ensures s.net + {HeartbeatTo(i, s.nodes[i], d)} <= s'.net
  {
    var e := Heartbeat(i);
    Play(cfg, w, s, e);
    s' := Step(cfg, s, e);
    var out := Handle(cfg, s, e);
    assert out.sent[d] in out.sent;
    assert s'.hist == s.hist;
  }

  // An AppendEntries of another replica reaches its destination.
  lemma Append(cfg: Config, w: Waived, s: State, m: Msg) returns (s': State)
    requires Reaches(cfg, w, s) && m in s.net && m.AppendEntries?
    requires m.src < cfg.n && m.dst < cfg.n && m.src != m.dst && m.term >= s.nodes[m.dst].term
    requires w.A6? || CommitIsVouched(s, Deliver(m, map[]))
    ensures Reaches(cfg, w, s')
    ensures var i, x, h := m.dst, s.nodes[m.dst], s.hist;
            var out := OnAppendEntries(i, x, m);
            && TrackOf(s') == Track(s.nodes[i := out.node],
                                    h.counted[i := if m.term > x.term then {} else h.counted[i]],
                                    h.heard[i := true])
            && |out.sent| == 1 && s.net + {out.sent[0]} <= s'.net
  {
    var e := Deliver(m, map[]);
    Play(cfg, w, s, e);
    s' := Step(cfg, s, e);
    var out := Handle(cfg, s, e);
    assert out.sent[0] in out.sent;
  }

  // A response of no newer term reaches the leader.
  lemma Respond(cfg: Config, w: Waived, s: State, m: Msg) returns (s': State)
    requires Reaches(cfg, w, s) && m in s.net && m.AppendResponse?
    requires m.src < cfg.n && m.dst < cfg.n && s.nodes[m.dst].role.Leader? && m.term <= s.nodes[m.dst].term
    requires w.A5? || m.term == s.nodes[m.dst].term
    ensures Reaches(cfg, w, s') && s.net <= s'.net
    ensures TrackOf(s') == Track(s.nodes[m.dst := OnAppendResponse(cfg, s.nodes[m.dst], m).node],
                                 s.hist.counted, s.hist.heard)
  {
    var e := Deliver(m, map[]);
    Play(cfg, w, s, e);
    s' := Step(cfg, s, e);
    assert s'.hist.counted == s.hist.counted && s'.hist.heard == s.hist.heard;
  }

  // What a leader sends follower d when everything pending fits into one message.
  function PendingTo(i: nat, y: NodeState, d: nat): Msg
    requires d < |y.nextIndex|
  {
    ProposalAt(i, y, d, y.nextIndex[d] - 1, Pending(y.log, y.nextIndex[d]))
  }

  // A client request reaches a leader.
  lemma Submit(cfg: Config, w: Waived, s: State, i: nat, command: string) returns (s': State)
    requires Reaches(cfg, w, s) && i < cfg.n && s.nodes[i].role.Leader?
    requires forall e :: cfg.entrySize(e) == 0
    ensures Reaches(cfg, w, s') && s.net <= s'.net
    ensures var y := Appended(s.nodes[i], command, 0, 0);
            && TrackOf(s') == Track(s.nodes[i := y], s.hist.counted, s.hist.heard)
            && forall d {:trigger PendingTo(i, y, d)} :: 0 <= d < cfg.n && d != i && 1 <= y.nextIndex[d] <= |y.log| ==>
                 PendingTo(i, y, d) in s'.net
  {
    var e := ClientRequest(i, command, 0, 0, {});
    var x, y := s.nodes[i], Appended(s.nodes[i], command, 0, 0);
    assert ProposalsEnd(cfg, i, y, {});
    Play(cfg, w, s, e);
    s' := Step(cfg, s, e);
    forall d | 0 <= d < cfg.n && d != i && 1 <= y.nextIndex[d] <= |y.log| ensures PendingTo(i, y, d) in s'.net {
      RequestSends(cfg, i, x, command, d);
    }
    assert s'.hist.counted == s.hist.counted && s'.hist.heard == s.hist.heard;
  }

  lemma RequestSends(cfg: Config, i: nat, x: NodeState, command: string, d: nat)
    requires Sized(cfg, x) && i < cfg.n && d < cfg.n && d != i && x.role.Leader? && 1 <= x.nextIndex[d] <= |x.log| + 1
    requires forall e :: cfg.entrySize(e) == 0
    ensures var y := Appended(x, command, 0, 0);
            && ProposalsEnd(cfg, i, y, {})
            && PendingTo(i, y, d) in OnClientRequest(cfg, i, x, command, 0, 0, {}).sent
  {
    var y := Appended(x, command, 0, 0);
    SingleProposal(cfg, i, y, d);
    assert ProposalsEnd(cfg, i, y, {});
    var q := FlattenHas(Parts(cfg, i, y, {}, cfg.n), d, 0);
    var sent := ProposalsBelow(cfg, i, y, {}, cfg.n);
    assert sent[q] in sent;
  }

  lemma SingleProposal(cfg: Config, i: nat, y: NodeState, d: nat)
    requires Sized(cfg, y) && d < cfg.n && 1 <= y.nextIndex[d] <= |y.log|
    requires forall e :: cfg.entrySize(e) == 0
    ensures AllFit(Pending(y.log, y.nextIndex[d]), cfg.entrySize)
    ensures ProposalsTo(cfg, i, y, d) == [PendingTo(i, y, d)]
  {
    var pending := Pending(y.log, y.nextIndex[d]);
    OneBatch(pending, cfg.entrySize);
    assert Starts([pending], 0) == [0];
    assert ProposalsTo(cfg, i, y, d)[0] == PendingTo(i, y, d);
  }

  // Entries without size go into one message.
  lemma OneBatch(entries: seq<LogEntry>, size: LogEntry -> nat)
    requires entries != [] && forall e :: size(e) == 0
    ensures AllFit(entries, size) && Batches(entries, size) == [entries]
  {
    FillTakesAll(entries, size);
    assert entries[..|entries|] == entries && entries[|entries|..] == [];
  }

  lemma {:induction false} FillTakesAll(entries: seq<LogEntry>, size: LogEntry -> nat)
    requires forall e :: size(e) == 0
    ensures Fill(entries, size, HEADER_SLACK) == |entries|
  {
    if |entries| > 0 {
      FillTakesAll(entries[1..], size);
    }
  }
}
