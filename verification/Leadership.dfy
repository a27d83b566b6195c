// What a leader does with its office: whom it obeys, what it learns of its
// followers, and what it commits.
module Leadership {
  import opened Types
  import opened LogOps
  import opened Handlers
  import opened Cluster
  import opened Invariant
  import opened Safety

  // ---- taking office ----

  // The event brings candidate i a vote that it counts; whether it is one too
  // many of a term is assumption A2.
  ghost predicate BringsVote(s: State, e: Event, i: nat)
    requires i < |s.nodes|
  {
    Actor(e) == i && CountsVote(s.nodes[i], e)
  }

  // A become_leader is queued exactly when the replicas that voted for the
  // candidate in its term are a majority of all.
  lemma QueuedIffElected(cfg: Config, states: seq<State>, events: seq<Event>, k: nat, i: nat)
    requires IsAdmittedRun(cfg, Logs, states, events) && k < |events| && i < cfg.n
    requires BringsVote(states[k], events[k], i)
    ensures var s' := states[k + 1];
            && (states[k].nodes[i].leaderTasks < s'.nodes[i].leaderTasks <==> 2 * |s'.hist.counted[i]| > cfg.n)
            && forall y :: y in s'.hist.counted[i] ==>
                 (s'.nodes[i].term, y) in s'.hist.votes && s'.hist.votes[(s'.nodes[i].term, y)] == i
  {
    RunInv(cfg, Logs, states, events, k);
    assert StepAt(cfg, states, events, k);
    assert CandidateOk(cfg, states[k], i) by { assert PartOk(cfg, Logs, states[k], NodePart(i)); }
    RunInv(cfg, Logs, states, events, k + 1);
    assert CandidateOk(cfg, states[k + 1], i) by { assert PartOk(cfg, Logs, states[k + 1], NodePart(i)); }
  }

  // A new leader knows nothing of its followers and probes each at the end of
  // its own log.
  lemma OfficeStarts(cfg: Config, s: State, i: nat, d: nat)
    requires Enabled(cfg, s, LeaderTask(i)) && d < cfg.n && d != i
    ensures var x, y := s.nodes[i], Step(cfg, s, LeaderTask(i)).nodes[i];
            && y.role.Leader? && y.leader == Some(i) && y.matchIndex[d] == 0 && y.petitions == map[]
            && HeartbeatTo(i, y, d) == AppendEntries(i, d, x.term, |x.log|, LastTerm(x.log), [], x.commitIndex)
  {
  }

  // ---- what a leader knows of a follower ----

  // The event brings leader i a success of follower f.
  ghost predicate Claims(e: Event, i: nat, f: nat) {
    e.Deliver? && e.m.AppendResponse? && e.m.success && e.m.dst == i && e.m.src == f
  }

  // Replica i leads in both states, in one term.
  ghost predicate StaysLeader(s: State, s': State, i: nat) {
    && i < |s.nodes| && i < |s'.nodes|
    && s.nodes[i].role.Leader? && s'.nodes[i].role.Leader? && s.nodes[i].term == s'.nodes[i].term
  }

  lemma MatchStep(cfg: Config, s: State, e: Event, i: nat, f: nat)
    requires Enabled(cfg, s, e) && i < cfg.n && f < cfg.n && i != f && StaysLeader(s, Step(cfg, s, e), i)
    ensures var x, y := s.nodes[i], Step(cfg, s, e).nodes[i];
            if e == LeaderTask(i) then y.matchIndex[f] == 0
            else
              && x.matchIndex[f] <= y.matchIndex[f]
              && (Claims(e, i, f) ==> e.m.matchIndex <= y.matchIndex[f] && y.nextIndex[f] == y.matchIndex[f] + 1)
              && (y.matchIndex[f] != x.matchIndex[f] ==> Claims(e, i, f) && y.matchIndex[f] == e.m.matchIndex)
  {
  }

  // v is the largest of v0 and the match indices f claimed at events a..b.
  ghost predicate IsLargestClaim(events: seq<Event>, i: nat, f: nat, a: nat, b: nat, v0: int, v: int)
    requires a <= b <= |events|
  {
    && v0 <= v
    && (forall k :: a <= k < b && Claims(events[k], i, f) ==> events[k].m.matchIndex <= v)
    && (v == v0 || exists k :: a <= k < b && Claims(events[k], i, f) && events[k].m.matchIndex == v)
  }

  // In any run, from one become_leader to the next, the match index of a
  // follower is the largest of 0 and the match indices of the successes from it,
  // in whatever order these arrive.
  lemma {:induction false} MatchIsLargestClaim(cfg: Config, states: seq<State>, events: seq<Event>, i: nat, f: nat,
                                               a: nat, b: nat)
    requires IsRun(cfg, states, events) && a <= b < |states| && i < cfg.n && f < cfg.n && i != f
    requires Reigns(states, i, a, b) && forall k :: a <= k < b ==> events[k] != LeaderTask(i)
    ensures IsLargestClaim(events, i, f, a, b, states[a].nodes[i].matchIndex[f], states[b].nodes[i].matchIndex[f])
    ensures a > 0 && events[a - 1] == LeaderTask(i) ==> states[a].nodes[i].matchIndex[f] == 0
    decreases b
  {
    if a < b {
      MatchIsLargestClaim(cfg, states, events, i, f, a, b - 1);
      assert StepAt(cfg, states, events, b - 1);
      MatchStep(cfg, states[b - 1], events[b - 1], i, f);
      LargestClaimStep(events, i, f, a, b, states[a].nodes[i].matchIndex[f], states[b - 1].nodes[i].matchIndex[f],
                       states[b].nodes[i].matchIndex[f]);
    } else if a > 0 {
      assert StepAt(cfg, states, events, a - 1);
    }
  }

  lemma LargestClaimStep(events: seq<Event>, i: nat, f: nat, a: nat, b: nat, v0: int, v: int, v': int)
    requires a < b <= |events| && IsLargestClaim(events, i, f, a, b - 1, v0, v) && v <= v'
    requires Claims(events[b - 1], i, f) ==> events[b - 1].m.matchIndex <= v'
    requires v' != v ==> Claims(events[b - 1], i, f) && v' == events[b - 1].m.matchIndex
    ensures IsLargestClaim(events, i, f, a, b, v0, v')
  {
    if v' == v && v != v0 {
      var k :| a <= k < b - 1 && Claims(events[k], i, f) && events[k].m.matchIndex == v;
      assert Claims(events[k], i, f);
    }
  }

  // Within a reign the match index falls if and only if a second become_leader
  // of the same election resets it; a success leaves the next index just past it.
  lemma MatchFallsIff(cfg: Config, states: seq<State>, events: seq<Event>, k: nat, i: nat, f: nat)
    requires IsRun(cfg, states, events) && k < |events| && i < cfg.n && f < cfg.n && i != f
    requires StaysLeader(states[k], states[k + 1], i)
    ensures var x, y := states[k].nodes[i], states[k + 1].nodes[i];
            && (y.matchIndex[f] < x.matchIndex[f] <==> events[k] == LeaderTask(i) && x.matchIndex[f] > 0)
            && (Claims(events[k], i, f) ==> y.nextIndex[f] == y.matchIndex[f] + 1)
  {
    assert StepAt(cfg, states, events, k);
    MatchStep(cfg, states[k], events[k], i, f);
  }

  // A follower's answer to what it accepted tells the leader all of it.
  lemma AnswerIsHeard(cfg: Config, i: nat, x: NodeState, f: nat, y: NodeState, m: Msg)
    requires Sized(cfg, x) && i < cfg.n && f < cfg.n && i != f && x.role.Leader?
    requires m.AppendEntries? && m.src == i && m.dst == f && m.term == x.term && Takes(y, m)
    ensures var sent := OnAppendEntries(f, y, m).sent;
            && |sent| == 1 && sent[0].AppendResponse? && sent[0].dst == i && sent[0].src == f
            && var x' := OnAppendResponse(cfg, x, sent[0]).node;
               m.prevLogIndex + |m.entries| <= x'.matchIndex[f] < x'.nextIndex[f]
  {
  }

  // ---- what a leader commits ----

  // An entry of the leader's term that it and at least half of the replicas, less one, hold.
  ghost predicate HeldByHalf(cfg: Config, x: NodeState, k: nat) {
    && 1 <= k <= |x.log| && x.log[k - 1].term == x.term
    && 2 * (1 + |set f: nat | f < |x.matchIndex| && x.matchIndex[f] >= k|) >= cfg.n
  }

  // After a success the commit index is the largest such index, if one is above the old one.
  lemma CommitIsLargest(cfg: Config, s: State, e: Event)
    requires Enabled(cfg, s, e) && e.Deliver? && e.m.AppendResponse? && e.m.success
    requires s.nodes[e.m.dst].role.Leader? && e.m.term <= s.nodes[e.m.dst].term
    ensures var x, y := s.nodes[e.m.dst], Step(cfg, s, e).nodes[e.m.dst];
            && x.commitIndex <= y.commitIndex && (y.commitIndex == x.commitIndex || HeldByHalf(cfg, y, y.commitIndex))
            && forall k :: y.commitIndex < k <= |y.log| ==> !HeldByHalf(cfg, y, k)
  {
    var x, y := Matched(s.nodes[e.m.dst], e.m.src, e.m.matchIndex), Step(cfg, s, e).nodes[e.m.dst];
    assert y == x.(commitIndex := NewCommit(cfg, x));
    forall k: nat ensures HeldByHalf(cfg, y, k) <==> Committable(cfg, x, k) {
      assert Replicas(x.matchIndex, k) == set f: nat | f < |y.matchIndex| && y.matchIndex[f] >= k;
    }
  }
}
