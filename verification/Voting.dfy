// How often a replica votes in one term, in any run of the code.
module Voting {
  import opened Types
  import opened Handlers
  import opened Cluster

  // A recorded vote of y's current term is still in voted_for, unless an
  // AppendEntries of that term has cleared it.
  ghost predicate VoteRemembered(cfg: Config, s: State, T: nat, y: nat)
    requires Shape(cfg, s) && (T, y) in s.hist.votes
  {
    && y < cfg.n && T <= s.nodes[y].term
    && (T == s.nodes[y].term ==> s.hist.heard[y] || s.nodes[y].votedFor == Some(s.hist.votes[(T, y)]))
  }

  ghost predicate VotesRemembered(cfg: Config, s: State) {
    && Shape(cfg, s)
    && forall T, y {:trigger VoteRemembered(cfg, s, T, y)} :: (T, y) in s.hist.votes ==> VoteRemembered(cfg, s, T, y)
  }

  // Within a term only an AppendEntries takes a vote back.
  lemma VotedForChange(cfg: Config, s: State, e: Event, y: nat)
    requires Enabled(cfg, s, e) && y < cfg.n
    ensures var x, x' := s.nodes[y], Step(cfg, s, e).nodes[y];
            && x.term <= x'.term
            && (x'.term == x.term && x.votedFor.Some? && !Step(cfg, s, e).hist.heard[y] ==> x'.votedFor == x.votedFor)
            && (x'.term == x.term && s.hist.heard[y] ==> Step(cfg, s, e).hist.heard[y])
  {
  }

  lemma RememberedStep(cfg: Config, s: State, e: Event)
    requires VotesRemembered(cfg, s) && Enabled(cfg, s, e)
    ensures VotesRemembered(cfg, Step(cfg, s, e))
  {
    var s' := Step(cfg, s, e);
    ShapeStep(cfg, s, e);
    forall T, y | (T, y) in s'.hist.votes ensures VoteRemembered(cfg, s', T, y) {
      if Grants(e, Handle(cfg, s, e)) && T == s'.nodes[e.m.dst].term && y == e.m.dst {
      } else {
        assert VoteRemembered(cfg, s, T, y);
        VotedForChange(cfg, s, e, y);
      }
    }
  }

  lemma {:induction false} RememberedInRun(cfg: Config, states: seq<State>, events: seq<Event>, k: nat)
    requires IsRun(cfg, states, events) && k < |states|
    ensures VotesRemembered(cfg, states[k])
  {
    if k > 0 {
      RememberedInRun(cfg, states, events, k - 1);
      assert StepAt(cfg, states, events, k - 1);
      RememberedStep(cfg, states[k - 1], events[k - 1]);
    }
  }

  // y granted its vote of this term to another candidate than src.
  ghost predicate VotedOther(s: State, term: nat, y: nat, src: nat) {
    (term, y) in s.hist.votes && s.hist.votes[(term, y)] != src
  }

  // A replica that already voted for another candidate in the term of a request
  // grants it if and only if it has processed an AppendEntries of that term, has
  // not voted again since, and the candidate's log is up to date: exactly when
  // the request breaks assumption A3.
  lemma SecondVoteIff(cfg: Config, states: seq<State>, events: seq<Event>, k: nat)
    requires IsRun(cfg, states, events) && k < |events| && StepAt(cfg, states, events, k)
    requires events[k].Deliver? && events[k].m.RequestVote? && !events[k].m.isPetition
    requires VotedOther(states[k], events[k].m.term, events[k].m.dst, events[k].m.src)
    ensures var m, s, y := events[k].m, states[k], Actor(events[k]);
            var x := s.nodes[y];
            Grants(events[k], Handle(cfg, s, events[k]))
            <==> && m.term == x.term && s.hist.heard[y]
                 && (x.votedFor.None? || x.votedFor == Some(m.src))
                 && UpToDate(m.lastLogTerm, m.lastLogIndex, x.log)
  {
    var m, s := events[k].m, states[k];
    RememberedInRun(cfg, states, events, k);
    assert VoteRemembered(cfg, s, m.term, m.dst);
  }

  // So a replica never votes for two candidates in a term while A3 holds.
  lemma OneVotePerTerm(cfg: Config, states: seq<State>, events: seq<Event>, k: nat)
    requires IsRun(cfg, states, events) && k < |events|
    requires StepAt(cfg, states, events, k) && NoVoteAfterLeader(states[k], events[k])
    requires Grants(events[k], Handle(cfg, states[k], events[k]))
    ensures !VotedOther(states[k], events[k].m.term, events[k].m.dst, events[k].m.src)
  {
    if VotedOther(states[k], events[k].m.term, events[k].m.dst, events[k].m.src) {
      SecondVoteIff(cfg, states, events, k);
    }
  }
}
