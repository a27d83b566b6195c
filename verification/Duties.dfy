// When a replica stands, votes, follows, refuses and moves to another term.
module Duties {
  import opened Types
  import opened LogOps
  import opened Handlers
  import opened Cluster
  import opened Invariant
  import opened Stability
  import opened Safety

  // ---- standing ----

  ghost predicate Eligible(cfg: Config, i: nat) { cfg.eligible == {} || i in cfg.eligible }

  // A timeout makes a candidate of a replica if and only if the configuration
  // lets it lead and, as long as nobody ever led, lets it lead first.  It then asks
  // everybody, itself included, for a vote in the next term.
  lemma StandsIff(cfg: Config, s: State, i: nat)
    requires Enabled(cfg, s, Timeout(i))
    ensures var x, out := s.nodes[i], Handle(cfg, s, Timeout(i));
            if Eligible(cfg, i) && (x.term > 0 || x.leader.Some? || i in cfg.initialEligible) then
              && out.node.role.Candidate? && out.node.term == x.term + 1 && out.node.votedFor == Some(i)
              && out.node.leader.None? && out.node.votesReceived == 0 && out.node.log == x.log && |out.sent| == cfg.n
              && forall d :: 0 <= d < cfg.n ==>
                   out.sent[d] == RequestVote(i, d, x.term + 1, |x.log|, LastTerm(x.log), false)
            else out == Outcome(x, [], [])
  {
  }

  // So only eligible replicas ever lead.
  lemma {:induction false} OnlyEligibleLead(cfg: Config, states: seq<State>, events: seq<Event>, a: nat, i: nat)
    requires IsAdmittedRun(cfg, Logs, states, events) && a < |states| && i < cfg.n
    ensures states[a].nodes[i].role.Follower? || Eligible(cfg, i)
  {
    if a > 0 {
      OnlyEligibleLead(cfg, states, events, a - 1, i);
      assert StepAt(cfg, states, events, a - 1);
    }
  }

  // ---- terms ----

  // The handlers that look at a larger term before anything else.
  predicate Heeds(x: NodeState, m: Msg) {
    match m
    case RequestVote(_, _, _, _, _, isPetition) => !isPetition
    case VoteResponse(_, _, _, _) => x.role.Candidate?
    case AppendEntries(src, dst, _, _, _, _, _) => src != dst
    case AppendResponse(_, _, _, _, _) => x.role.Leader?
    case Petition(_, _, _, _, _, _) => false
  }

  // A delivery changes the term if and only if a handler that looks for larger
  // terms finds one: it becomes that term, and the replica a follower in it whose
  // vote is free unless it goes to the sender.
  lemma TermMovesIff(cfg: Config, s: State, e: Event)
    requires Enabled(cfg, s, e) && e.Deliver?
    ensures var x, y := s.nodes[e.m.dst], Handle(cfg, s, e).node;
            && y.term == (if Heeds(x, e.m) && e.m.term > x.term then e.m.term else x.term)
            && (y.term != x.term ==>
                  && y.role.Follower? && y.petitions == map[] && y.petitionCount == 0
                  && (y.votedFor.None? || (e.m.RequestVote? && y.votedFor == Some(e.m.src))))
  {
  }

  // ---- voting ----

  // (t, k) is not before (t', k') in the order of log ends.
  predicate NotBehind(t: nat, k: nat, t': nat, k': nat) { t' < t || (t' == t && k' <= k) }

  // A vote is granted if and only if the term is not old, the vote is free in it,
  // and the candidate's log does not end before the voter's; the answer says so in
  // the later of the two terms.
  lemma GrantIff(cfg: Config, s: State, e: Event)
    requires Enabled(cfg, s, e) && e.Deliver? && e.m.RequestVote? && !e.m.isPetition
    ensures var m, x, out := e.m, s.nodes[e.m.dst], Handle(cfg, s, e);
            var granted := m.term >= x.term && (m.term > x.term || x.votedFor.None? || x.votedFor == Some(m.src))
                           && NotBehind(m.lastLogTerm, m.lastLogIndex, LastTerm(x.log), |x.log|);
            && out.sent == [VoteResponse(m.dst, m.src, Max(x.term, m.term), granted)]
            && (granted ==> out.node.votedFor == Some(m.src)) && out.node.log == x.log
  {
  }

  // ---- following ----

  // An AppendEntries of an old term is refused with the newer one and changes
  // nothing.  Any other makes its sender the leader, and is accepted if and only
  // if the log contains the entry it continues from.
  lemma AppendAnswered(cfg: Config, s: State, e: Event)
    requires Enabled(cfg, s, e) && e.Deliver? && e.m.AppendEntries? && e.m.src != e.m.dst
    ensures var m, x, out := e.m, s.nodes[e.m.dst], Handle(cfg, s, e);
            if m.term < x.term then out == Outcome(x, [AppendResponse(m.dst, m.src, x.term, false, 0)], [])
            else
              && out.node.leader == Some(m.src) && out.node.role.Follower? && out.node.term == m.term
              && if ContainsEntry(x.log, m.prevLogIndex, m.prevLogTerm) then
                   out.sent == [AppendResponse(m.dst, m.src, m.term, true, m.prevLogIndex + |m.entries|)]
                 else
                   && out.sent == [AppendResponse(m.dst, m.src, m.term, false, 0)]
                   && out.node.log == x.log && out.node.commitIndex == x.commitIndex
  {
  }

  // A leader takes itself for the leader, a candidate nobody.
  predicate OwnsLeader(x: NodeState, i: nat) {
    (x.role.Leader? ==> x.leader == Some(i)) && (x.role.Candidate? ==> x.leader.None?)
  }

  lemma LeaderMoves(cfg: Config, s: State, e: Event)
    requires Enabled(cfg, s, e) && OwnsLeader(s.nodes[Actor(e)], Actor(e))
    ensures var x, y := s.nodes[Actor(e)], Handle(cfg, s, e).node;
            && OwnsLeader(y, Actor(e))
            && (y.leader.None? || y.leader == Some(Actor(e)) || (y.leader == x.leader && y.term == x.term)
                || (e.Deliver? && e.m.AppendEntries? && y.leader == Some(e.m.src) && y.term == e.m.term))
  {
  }

  // A replica that takes another for its leader is right: that one won the term.
  ghost predicate LeaderKnown(s: State, i: nat)
    requires i < |s.nodes|
  {
    var x := s.nodes[i];
    && OwnsLeader(x, i)
    && (x.leader.Some? && x.leader != Some(i) ==>
          x.term in s.hist.elections && s.hist.elections[x.term].leader == x.leader.value)
  }

  lemma {:induction false} LeaderKnownInRun(cfg: Config, states: seq<State>, events: seq<Event>, a: nat, i: nat)
    requires IsAdmittedRun(cfg, Logs, states, events) && a < |states| && i < cfg.n
    ensures LeaderKnown(states[a], i)
  {
    if a > 0 {
      var s, e := states[a - 1], events[a - 1];
      LeaderKnownInRun(cfg, states, events, a - 1, i);
      assert HistGrows(s.hist, states[a].hist) by { RunGrows(cfg, Logs, states, events, a - 1, a); }
      assert StepAt(cfg, states, events, a - 1);
      if i == Actor(e) {
        LeaderMoves(cfg, s, e);
        if e.Deliver? && e.m.AppendEntries? {
          assert AppendOk(cfg.n, Logs, s.hist, e.m) by {
            RunInv(cfg, Logs, states, events, a - 1);
            assert PartOk(cfg, Logs, s, MsgPart(e.m));
          }
        }
      }
    }
  }

  // Replicas of one term that know a leader other than themselves, at whatever
  // times, know the same one, and no other replica leads in that term.
  lemma KnownLeadersAgree(cfg: Config, states: seq<State>, events: seq<Event>, a: nat, i: nat, b: nat, j: nat)
    requires IsAdmittedRun(cfg, Logs, states, events) && a < |states| && b < |states| && i < cfg.n && j < cfg.n
    requires states[a].nodes[i].leader.Some? && states[a].nodes[i].leader != Some(i)
    requires states[a].nodes[i].term == states[b].nodes[j].term
    ensures states[b].nodes[j].role.Leader? ==> states[a].nodes[i].leader == Some(j)
    ensures states[b].nodes[j].leader.Some? && states[b].nodes[j].leader != Some(j) ==>
              states[a].nodes[i].leader == states[b].nodes[j].leader
  {
    LeaderKnownInRun(cfg, states, events, a, i);
    LeaderKnownInRun(cfg, states, events, b, j);
    RunInv(cfg, Logs, states, events, b);
    assert LeaderOk(cfg, states[b], j) by { assert PartOk(cfg, Logs, states[b], NodePart(j)); }
    if a <= b {
      RunGrows(cfg, Logs, states, events, a, b);
    } else {
      RunGrows(cfg, Logs, states, events, b, a);
    }
  }
}
