// Latency petitions: who petitions whom, what the map latency_to_leader holds,
// when the leader is asked to step down, and that it does.  Only the last result
// needs any of the assumptions A2..A6.
module Petitions {
  import opened Types
  import opened LogOps
  import opened Handlers
  import opened Cluster
  import opened Preservation
  import opened Safety

  // `src` asked node i, in i's current term, to replace the leader, reporting `latency`.
  ghost predicate Petitioned(s: State, i: nat, src: nat, latency: real)
    requires i < |s.nodes|
  {
    exists leader :: Petition(src, i, s.nodes[i].term, leader, i, latency) in s.net
  }

  ghost predicate PetitionsOf(cfg: Config, s: State, i: nat)
    requires Shape(cfg, s) && i < cfg.n
  {
    forall src :: src in s.nodes[i].petitions ==>
      src < cfg.n && src != i && Petitioned(s, i, src, s.nodes[i].petitions[src])
  }

  ghost predicate PetitionInv(cfg: Config, s: State) {
    && Shape(cfg, s)
    && (forall i :: 0 <= i < cfg.n ==> PetitionsOf(cfg, s, i))
    && forall m :: m in s.net && m.Petition? ==> m.src < cfg.n && m.src != m.proposed && m.dst == m.proposed
  }

  // Terms never decrease; when a replica's term grows its petitions are
  // forgotten, and otherwise only a petition adds one.
  lemma PetitionsChange(cfg: Config, s: State, e: Event, i: nat)
    requires Enabled(cfg, s, e) && i < cfg.n
    ensures var x, y := s.nodes[i], Step(cfg, s, e).nodes[i];
            && x.term <= y.term
            && (y.term > x.term ==> y.petitions == map[])
            && (y.petitions == x.petitions || y.petitions == map[]
                || (e.Deliver? && e.m.Petition? && e.m.dst == i && e.m.term == x.term && e.m.proposed == i
                    && y.petitions == x.petitions[e.m.src := e.m.latency]))
  {
  }

  lemma OnlyPenaltyTimerPetitions(cfg: Config, s: State, e: Event, m: Msg)
    requires Enabled(cfg, s, e) && m in Handle(cfg, s, e).sent && m.Petition?
    ensures m.src == Actor(e) && m.src != m.proposed && m.dst == m.proposed
  {
    if e.ClientRequest? {
      var y := Appended(s.nodes[e.i], e.command, e.clientId, e.requestId);
      if s.nodes[e.i].role.Leader? {
        ProposalsAreAppends(cfg, e.i, y, e.skip, cfg.n);
      }
    }
  }

  lemma PetitionStep(cfg: Config, s: State, e: Event)
    requires PetitionInv(cfg, s) && Enabled(cfg, s, e)
    ensures PetitionInv(cfg, Step(cfg, s, e))
  {
    var s' := Step(cfg, s, e);
    ShapeStep(cfg, s, e);
    forall m | m in s'.net && m.Petition? ensures m.src < cfg.n && m.src != m.proposed && m.dst == m.proposed {
      if m !in s.net {
        OnlyPenaltyTimerPetitions(cfg, s, e, m);
      }
    }
    forall i | 0 <= i < cfg.n ensures PetitionsOf(cfg, s', i) {
      PetitionsChange(cfg, s, e, i);
      PetitionsStay(cfg, s, e, i);
    }
  }

  lemma PetitionsStay(cfg: Config, s: State, e: Event, i: nat)
    requires PetitionInv(cfg, s) && Enabled(cfg, s, e) && i < cfg.n
    ensures Shape(cfg, Step(cfg, s, e)) && PetitionsOf(cfg, Step(cfg, s, e), i)
  {
    var s' := Step(cfg, s, e);
    ShapeStep(cfg, s, e);
    PetitionsChange(cfg, s, e, i);
    assert PetitionsOf(cfg, s, i);
    var x, y := s.nodes[i], s'.nodes[i];
    forall src | src in y.petitions
      ensures src < cfg.n && src != i && Petitioned(s', i, src, y.petitions[src])
    {
      if src in x.petitions && y.petitions[src] == x.petitions[src] {
        var l :| Petition(src, i, x.term, l, i, x.petitions[src]) in s.net;
        assert Petition(src, i, y.term, l, i, y.petitions[src]) in s'.net;
      } else {
        assert Petition(src, i, y.term, e.m.currentLeader, i, y.petitions[src]) in s'.net;
      }
    }
  }

  // In every reachable state, whoever is in a replica's petition map petitioned
  // it in its current term with the latency recorded there.
  lemma {:induction false} PetitionEpoch(cfg: Config, states: seq<State>, events: seq<Event>, k: nat)
    requires IsRun(cfg, states, events) && k < |states|
    ensures PetitionInv(cfg, states[k])
  {
    if k > 0 {
      PetitionEpoch(cfg, states, events, k - 1);
      assert StepAt(cfg, states, events, k - 1);
      PetitionStep(cfg, states[k - 1], events[k - 1]);
    }
  }

  lemma OnlyPetitionsFire(cfg: Config, s: State, e: Event, m: Msg)
    requires Enabled(cfg, s, e) && m in Handle(cfg, s, e).sent && m.RequestVote? && m.isPetition
    ensures e.Deliver? && e.m.Petition?
    ensures var z := Handle(cfg, s, e).node;
            && |z.petitions| >= CommitQuorum(cfg.n) - 1 && PetitionHolds(z.petitions, e.rtt)
            && z.leader == Some(m.dst) && m.term == z.term
  {
    if e.ClientRequest? {
      var y := Appended(s.nodes[e.i], e.command, e.clientId, e.requestId);
      if s.nodes[e.i].role.Leader? {
        ProposalsAreAppends(cfg, e.i, y, e.skip, cfg.n);
      }
    }
  }

  // When a step-down request goes out in a run, the petitioners together with
  // the proposer are at least majority_count distinct replicas, each petitioned
  // in the proposer's current term, and none reported a latency to the leader
  // below the proposer's latency to that petitioner; the request goes to the proposer's leader.
  lemma StepDownNeedsQuorum(cfg: Config, states: seq<State>, events: seq<Event>, k: nat, m: Msg)
    requires IsRun(cfg, states, events) && k < |events| && StepAt(cfg, states, events, k)
    requires m in Handle(cfg, states[k], events[k]).sent && m.RequestVote? && m.isPetition
    ensures events[k].Deliver?
    ensures var i := Actor(events[k]);
            var s' := states[k + 1];
            var y := s'.nodes[i];
            && |y.petitions.Keys + {i}| >= CommitQuorum(cfg.n)
            && (forall src :: src in y.petitions ==>
                  && src < cfg.n && src != i && Petitioned(s', i, src, y.petitions[src])
                  && Latency(events[k].rtt, src) <= y.petitions[src])
            && y.leader == Some(m.dst) && m.term == y.term
  {
    assert StepAt(cfg, states, events, k);
    OnlyPetitionsFire(cfg, states[k], events[k], m);
    PetitionEpoch(cfg, states, events, k + 1);
    var i := Actor(events[k]);
    var y := states[k + 1].nodes[i];
    assert PetitionsOf(cfg, states[k + 1], i);
    assert i !in y.petitions.Keys;
    assert |y.petitions.Keys| == |y.petitions|;
  }

  // ---- petitioning ----

  // A replica petitions if and only if it is not the leader, its latency to the
  // leader is above the threshold, and the one proposed is neither the leader nor
  // itself.  The petition names the leader and carries that latency.
  lemma PetitionsIff(cfg: Config, s: State, e: Event)
    requires Enabled(cfg, s, e) && e.PenaltyTimer?
    ensures var x, out := s.nodes[e.i], Handle(cfg, s, e);
            var latency := if x.leader.Some? && x.leader.value in e.rtt then e.rtt[x.leader.value] else -1.0;
            && out.node == x
            && out.sent == if !x.role.Leader? && latency > cfg.latencyThreshold && x.leader != Some(e.proposed)
                              && e.proposed != e.i
                           then [Petition(e.i, e.proposed, x.term, x.leader, e.proposed, latency)] else []
  {
  }

  // ---- asking the leader to step down ----

  // A petition that its receiver takes: of its term, about its leader, for itself.
  ghost predicate Concerns(s: State, m: Msg)
    requires m.Petition? && m.dst < |s.nodes|
  {
    m.term == s.nodes[m.dst].term && m.currentLeader == s.nodes[m.dst].leader && m.proposed == m.dst
  }

  // Every latency recorded is at least the replica's own to its sender, -1 if unknown.
  ghost predicate NoneCloser(petitions: map<nat, real>, rtt: map<nat, real>) {
    forall q :: q in petitions ==> (if q in rtt then rtt[q] else -1.0) <= petitions[q]
  }

  lemma AskedIff(cfg: Config, i: nat, x: NodeState, m: Msg, rtt: map<nat, real>)
    requires m.Petition? && m.term == x.term && m.currentLeader == x.leader && m.proposed == i && m.src !in x.petitions
    ensures OnPetition(cfg, i, x, m, rtt).sent
            == if x.leader.Some? && 2 * (|x.petitions| + 2) >= cfg.n && NoneCloser(x.petitions[m.src := m.latency], rtt)
               then [RequestVote(i, x.leader.value, x.term, |x.log|, LastTerm(x.log), true)] else []
  {
    var all := x.petitions[m.src := m.latency];
    assert |all| == |x.petitions| + 1;
    assert PetitionHolds(all, rtt) <==> NoneCloser(all, rtt);
  }

  // In any run a petition from a new sender makes its receiver ask the leader to
  // step down if and only if a leader is known, the senders and the receiver are
  // at least half of the replicas, and none of the latencies is below the
  // receiver's own to that sender.
  lemma StepDownAskedIff(cfg: Config, states: seq<State>, events: seq<Event>, k: nat)
    requires IsRun(cfg, states, events) && k < |events| && StepAt(cfg, states, events, k)
    requires events[k].Deliver? && events[k].m.Petition? && Concerns(states[k], events[k].m)
    requires events[k].m.src !in states[k].nodes[events[k].m.dst].petitions
    ensures var m, x := events[k].m, states[k].nodes[events[k].m.dst];
            Handle(cfg, states[k], events[k]).sent
            == if x.leader.Some? && 2 * |x.petitions.Keys + {m.src} + {m.dst}| >= cfg.n
                  && NoneCloser(x.petitions[m.src := m.latency], events[k].rtt)
               then [RequestVote(m.dst, x.leader.value, x.term, |x.log|, LastTerm(x.log), true)] else []
  {
    var m, x := events[k].m, states[k].nodes[events[k].m.dst];
    PetitionEpoch(cfg, states, events, k);
    assert PetitionsOf(cfg, states[k], m.dst);
    assert |x.petitions.Keys| == |x.petitions| && m.dst !in x.petitions.Keys + {m.src};
    AskedIff(cfg, m.dst, x, m, events[k].rtt);
  }

  // A petition from a known sender replaces its latency and asks for nothing; one
  // that does not concern the receiver changes nothing.
  lemma OtherPetitions(cfg: Config, s: State, e: Event)
    requires Enabled(cfg, s, e) && e.Deliver? && e.m.Petition?
    requires !Concerns(s, e.m) || e.m.src in s.nodes[e.m.dst].petitions
    ensures var x, out := s.nodes[e.m.dst], Handle(cfg, s, e);
            && out.sent == []
            && out.node == if Concerns(s, e.m) then x.(petitions := x.petitions[e.m.src := e.m.latency]) else x
  {
  }

  // ---- stepping down ----

  ghost predicate IsStepDown(e: Event) {
    e.Deliver? && e.m.RequestVote? && e.m.isPetition
  }

  // A leader asked to step down in its term or a later one does, keeping its
  // term, log, vote and commit index; asked in an earlier one it refuses with its
  // own.  Nobody else is moved by such a request.
  lemma StepDownObeyed(cfg: Config, s: State, e: Event)
    requires Enabled(cfg, s, e) && IsStepDown(e)
    ensures var m, x, out := e.m, s.nodes[e.m.dst], Handle(cfg, s, e);
            if m.term < x.term then out == Outcome(x, [VoteResponse(m.dst, m.src, x.term, false)], [])
            else if !x.role.Leader? then out == Outcome(x, [], [])
            else
              && out.sent == [] && out.node.role.Follower? && out.node.leader.None? && out.node.term == x.term
              && out.node.log == x.log && out.node.votedFor == x.votedFor && out.node.commitIndex == x.commitIndex
  {
  }

  // A leader that was asked to step down, or a replica whose failure timer fired,
  // knows no leader, keeps the rest of its state, and does not lead again in that term.
  lemma DeposedForTerm(cfg: Config, states: seq<State>, events: seq<Event>, k: nat, b: nat, i: nat)
    requires IsAdmittedRun(cfg, Logs, states, events) && k < b < |states| && i < cfg.n && Actor(events[k]) == i
    requires var x := states[k].nodes[i];
             events[k].Failure? || (IsStepDown(events[k]) && x.role.Leader? && events[k].m.term >= x.term)
    ensures states[k + 1].nodes[i] == states[k].nodes[i].(role := Follower, leader := None)
    ensures states[b].nodes[i].term == states[k].nodes[i].term ==> states[b].nodes[i].role.Follower?
  {
    assert StepAt(cfg, states, events, k);
    if states[b].nodes[i].term == states[k].nodes[i].term {
      StepDownLasts(cfg, states, events, k + 1, b, i);
    }
  }
}
