// The safety theorems of the Raft paper over whole admitted runs, for every
// number of replicas, with election quorum n/2 + 1 and commit quorum (n+1)/2.
// The two states compared may be any two states of the run, in either order.
module Safety {
  import opened Types
  import opened LogOps
  import opened Batcher
  import opened Handlers
  import opened Cluster
  import opened Invariant
  import opened Stability
  import opened Completeness
  import opened Preservation

  lemma {:induction false} RunInv(cfg: Config, sc: Scope, states: seq<State>, events: seq<Event>, k: nat)
    requires IsAdmittedRun(cfg, sc, states, events) && k < |states|
    ensures Inv(cfg, sc, states[k])
  {
    if k == 0 {
      InitInv(cfg, sc);
    } else {
      RunInv(cfg, sc, states, events, k - 1);
      assert StepAt(cfg, states, events, k - 1);
      StepKeeps(cfg, sc, states[k - 1], events[k - 1]);
    }
  }

  // A later state of the same run: terms and history have only grown.
  ghost predicate Later(cfg: Config, s: State, s': State) {
    && Shape(cfg, s) && Shape(cfg, s')
    && HistGrows(s.hist, s'.hist)
    && forall i :: 0 <= i < cfg.n ==> s.nodes[i].term <= s'.nodes[i].term
  }

  lemma LaterTransitive(cfg: Config, s0: State, s1: State, s2: State)
    requires Later(cfg, s0, s1) && Later(cfg, s1, s2)
    ensures Later(cfg, s0, s2)
  {
  }

  lemma EventGrows(cfg: Config, sc: Scope, states: seq<State>, events: seq<Event>, k: nat)
    requires IsAdmittedRun(cfg, sc, states, events) && k < |events|
    ensures Later(cfg, states[k], states[k + 1])
  {
    RunInv(cfg, sc, states, events, k);
    assert StepAt(cfg, states, events, k);
    StepKeeps(cfg, sc, states[k], events[k]);
  }

  lemma {:induction false} RunGrows(cfg: Config, sc: Scope, states: seq<State>, events: seq<Event>, a: nat, b: nat)
    requires IsAdmittedRun(cfg, sc, states, events) && a <= b < |states|
    ensures Later(cfg, states[a], states[b])
    decreases b
  {
    if a < b {
      RunGrows(cfg, sc, states, events, a, b - 1);
      EventGrows(cfg, sc, states, events, b - 1);
      LaterTransitive(cfg, states[a], states[b - 1], states[b]);
    }
  }

  // The last of two positions, to which facts of both can be carried.
  function Last(a: nat, b: nat): nat { if a <= b then b else a }

  // ---- Election Safety (section 5.2) ----

  lemma ElectionSafety(cfg: Config, states: seq<State>, events: seq<Event>, a: nat, i: nat, b: nat, j: nat)
    requires IsAdmittedRun(cfg, Logs, states, events) && a < |states| && b < |states|
    requires i < cfg.n && j < cfg.n
    requires states[a].nodes[i].role.Leader? && states[b].nodes[j].role.Leader?
    requires states[a].nodes[i].term == states[b].nodes[j].term
    ensures i == j
  {
    RunInv(cfg, Logs, states, events, a);
    RunInv(cfg, Logs, states, events, b);
    assert PartOk(cfg, Logs, states[a], NodePart(i)) && PartOk(cfg, Logs, states[b], NodePart(j));
    if a <= b {
      RunGrows(cfg, Logs, states, events, a, b);
    } else {
      RunGrows(cfg, Logs, states, events, b, a);
    }
  }

  lemma StepFollower(cfg: Config, s: State, e: Event, i: nat)
    requires Enabled(cfg, s, e) && TaskIsFresh(s, e) && i < cfg.n
    requires s.nodes[i].role.Follower? && Step(cfg, s, e).nodes[i].term == s.nodes[i].term
    ensures Step(cfg, s, e).nodes[i].role.Follower?
  {
  }

  // A replica that stepped down, by petition, failure or a vote it lost, neither
  // stands nor leads again in that term.
  lemma {:induction false} StepDownLasts(cfg: Config, states: seq<State>, events: seq<Event>, a: nat, b: nat, i: nat)
    requires IsAdmittedRun(cfg, Logs, states, events) && a <= b < |states|
    requires i < cfg.n
    requires states[a].nodes[i].role.Follower? && states[b].nodes[i].term == states[a].nodes[i].term
    ensures states[b].nodes[i].role.Follower?
    decreases b
  {
    if a < b {
      RunGrows(cfg, Logs, states, events, a, b - 1);
      RunGrows(cfg, Logs, states, events, b - 1, b);
      StepDownLasts(cfg, states, events, a, b - 1, i);
      assert StepAt(cfg, states, events, b - 1);
      StepFollower(cfg, states[b - 1], events[b - 1], i);
    }
  }

  // ---- Log Matching (section 5.3) ----

  lemma LogTracedAt(cfg: Config, states: seq<State>, events: seq<Event>, a: nat, i: nat, c: nat)
    requires IsAdmittedRun(cfg, Logs, states, events) && a <= c < |states|
    requires i < cfg.n
    ensures Traced(states[c].hist, states[a].nodes[i].log)
  {
    RunInv(cfg, Logs, states, events, a);
    RunGrows(cfg, Logs, states, events, a, c);
    assert PartOk(cfg, Logs, states[a], NodePart(i));
    TracedStable(states[a].hist, states[c].hist, states[a].nodes[i].log);
  }

  // Entries with the same index and term are equal, command, client id and
  // request id included, and so is everything before them.
  lemma LogMatching(cfg: Config, states: seq<State>, events: seq<Event>, a: nat, i: nat, b: nat, j: nat, k: nat)
    requires IsAdmittedRun(cfg, Logs, states, events) && a < |states| && b < |states|
    requires i < cfg.n && j < cfg.n
    requires 1 <= k <= |states[a].nodes[i].log| && k <= |states[b].nodes[j].log|
    requires states[a].nodes[i].log[k - 1].term == states[b].nodes[j].log[k - 1].term
    ensures Agree(states[a].nodes[i].log, states[b].nodes[j].log, k)
  {
    var c := Last(a, b);
    LogTracedAt(cfg, states, events, a, i, c);
    LogTracedAt(cfg, states, events, b, j, c);
    TracedMatch(states[c].hist, states[a].nodes[i].log, states[b].nodes[j].log);
  }

  // ---- committed entries (sections 5.3 and 5.4) ----

  lemma CertifiedAt(cfg: Config, states: seq<State>, events: seq<Event>, a: nat, i: nat, c: nat)
    requires IsAdmittedRun(cfg, Commits, states, events) && a <= c < |states|
    requires i < cfg.n
    ensures var x := states[a].nodes[i]; Certified(cfg.n, states[c].hist, x.log, x.commitIndex, x.term)
  {
    RunInv(cfg, Commits, states, events, a);
    RunGrows(cfg, Commits, states, events, a, c);
    var x := states[a].nodes[i];
    assert NodeCommit(cfg, states[a], i) by { assert PartOk(cfg, Commits, states[a], NodePart(i)); }
    CertifiedStable(cfg.n, states[a].hist, states[c].hist, x.log, x.log, x.commitIndex, x.term, x.term);
  }

  // State Machine Safety: no two replicas ever, at the same or different times,
  // hold different entries at an index both consider committed.
  lemma StateMachineSafety(cfg: Config, states: seq<State>, events: seq<Event>, a: nat, i: nat, b: nat, j: nat)
    requires IsAdmittedRun(cfg, Commits, states, events) && a < |states| && b < |states|
    requires i < cfg.n && j < cfg.n
    ensures var x, y := states[a].nodes[i], states[b].nodes[j]; Agree(x.log, y.log, Min(x.commitIndex, y.commitIndex))
  {
    var c := Last(a, b);
    var x, y := states[a].nodes[i], states[b].nodes[j];
    RunInv(cfg, Commits, states, events, c);
    CertifiedAt(cfg, states, events, a, i, c);
    CertifiedAt(cfg, states, events, b, j, c);
    CertifiedAgree(cfg, Commits, states[c], x.log, x.commitIndex, y.log, y.commitIndex, x.term, y.term);
  }

  // Leader Completeness: what a replica considers committed in some term is in
  // the log of every leader of every later term, whenever that leader reigned,
  // and of every leader of that same term from then on.
  lemma LeaderHasCommitted(cfg: Config, states: seq<State>, events: seq<Event>, a: nat, i: nat, b: nat, j: nat)
    requires IsAdmittedRun(cfg, Commits, states, events) && a < |states| && b < |states|
    requires i < cfg.n && j < cfg.n
    requires states[b].nodes[j].role.Leader?
    requires states[a].nodes[i].term < states[b].nodes[j].term
             || (a <= b && states[a].nodes[i].term == states[b].nodes[j].term)
    ensures Agree(states[a].nodes[i].log, states[b].nodes[j].log, states[a].nodes[i].commitIndex)
  {
    var c := Last(a, b);
    var x, y := states[a].nodes[i], states[b].nodes[j];
    RunInv(cfg, Commits, states, events, b);
    RunInv(cfg, Commits, states, events, c);
    CertifiedAt(cfg, states, events, a, i, c);
    RunGrows(cfg, Commits, states, events, b, c);
    assert LeaderOk(cfg, states[b], j) by { assert PartOk(cfg, Commits, states[b], NodePart(j)); }
    if a <= b {
      CertifiedInLater(cfg, Commits, states[c], x.log, x.commitIndex, x.term, y.term);
    } else {
      CertifiedInInitial(cfg, Commits, states[c], x.log, x.commitIndex, x.term, y.term);
      assert ElectionLog(states[b].hist, y.term) by { assert PartOk(cfg, Commits, states[b], TermPart(y.term)); }
    }
  }

  lemma CertifiedInInitial(cfg: Config, sc: Scope, s: State, log: seq<LogEntry>, c: nat, bound: nat, T: nat)
    requires Inv(cfg, sc, s) && Certified(cfg.n, s.hist, log, c, bound)
    requires T in s.hist.elections && bound < T
    ensures Agree(log, s.hist.elections[T].initial, c)
  {
    if c > 0 {
      var t: nat, idx: nat :| CertifiedBy(cfg.n, s.hist, log, c, bound, t, idx);
      LeaderCompleteness(cfg, sc, s, t, idx, T);
    }
  }

  // ---- the commit index ----

  lemma TakenCommitGrows(cfg: Config, s: State, m: Msg)
    requires Inv(cfg, Commits, s) && m.AppendEntries? && m.dst < cfg.n && m in s.net
    ensures s.nodes[m.dst].commitIndex <= OnAppendEntries(m.dst, s.nodes[m.dst], m).node.commitIndex
  {
    var i := m.dst;
    var x := s.nodes[i];
    if Takes(x, m) {
      assert NodeCommit(cfg, s, i) by { assert PartOk(cfg, Commits, s, NodePart(i)); }
      SpliceFromLeader(cfg, Commits, s, m);
      CertifiedInLater(cfg, Commits, s, x.log, x.commitIndex, x.term, m.term);
    }
  }

  lemma StepCommitGrows(cfg: Config, s: State, e: Event, i: nat)
    requires Inv(cfg, Commits, s) && Enabled(cfg, s, e) && i < cfg.n
    ensures s.nodes[i].commitIndex <= Step(cfg, s, e).nodes[i].commitIndex
  {
    if e.Deliver? && e.m.AppendEntries? && e.m.dst == i {
      TakenCommitGrows(cfg, s, e.m);
    }
  }

  // A replica's commit index never decreases, and what lies below it never changes.
  lemma {:induction false} CommitIsForever(cfg: Config, states: seq<State>, events: seq<Event>, a: nat, b: nat, i: nat)
    requires IsAdmittedRun(cfg, Commits, states, events) && a <= b < |states|
    requires i < cfg.n
    ensures states[a].nodes[i].commitIndex <= states[b].nodes[i].commitIndex
    ensures Agree(states[a].nodes[i].log, states[b].nodes[i].log, states[a].nodes[i].commitIndex)
    decreases b
  {
    StateMachineSafety(cfg, states, events, a, i, b, i);
    if a < b {
      RunInv(cfg, Commits, states, events, b - 1);
      CommitIsForever(cfg, states, events, a, b - 1, i);
      assert StepAt(cfg, states, events, b - 1);
      StepCommitGrows(cfg, states[b - 1], events[b - 1], i);
    }
  }

  // ---- who holds what ----

  // While a leader and a follower are in the same term, the follower's log
  // agrees with the leader's through match_index; the leader's own entry stays
  // 0, so that it is counted once.
  lemma MatchIndexTruth(cfg: Config, states: seq<State>, events: seq<Event>, a: nat, i: nat, f: nat)
    requires IsAdmittedRun(cfg, Matches, states, events) && a < |states|
    requires i < cfg.n && f < cfg.n && i != f
    requires states[a].nodes[i].role.Leader? && states[a].nodes[f].term == states[a].nodes[i].term
    ensures states[a].nodes[i].matchIndex[i] == 0 <= states[a].nodes[i].matchIndex[f]
    ensures Agree(states[a].nodes[f].log, states[a].nodes[i].log, states[a].nodes[i].matchIndex[f])
  {
    var s := states[a];
    RunInv(cfg, Matches, states, events, a);
    var x := s.nodes[i];
    assert NodeOk(cfg, Matches, s, i) by { assert PartOk(cfg, Matches, s, NodePart(i)); }
    assert Keeps(s.hist, s.nodes[f].log, f, Bound(s, f)) by { assert PartOk(cfg, Matches, s, NodePart(f)); }
    assert KeepsAt(s.hist, s.nodes[f].log, f, Bound(s, f), x.term, x.matchIndex[f]);
  }

  // A replica that acknowledged a committed entry still holds everything through it.
  lemma AckedIsHeld(cfg: Config, sc: Scope, s: State, t: nat, idx: nat, y: nat)
    requires Inv(cfg, sc, s) && Committed(cfg.n, s.hist, t, idx) && y in AckSet(cfg.n, s.hist, t, idx)
    ensures Agree(s.nodes[y].log, s.hist.elections[t].log, idx)
  {
    assert Keeps(s.hist, s.nodes[y].log, y, Bound(s, y)) by { assert PartOk(cfg, sc, s, NodePart(y)); }
    assert KeepsAt(s.hist, s.nodes[y].log, y, Bound(s, y), t, idx);
    if Overtaken(s.hist, t, idx, Bound(s, y)) {
      var w :| w in s.hist.elections && t < w < Bound(s, y) && Misses(s.hist, w, t, idx);
      LeaderCompleteness(cfg, sc, s, t, idx, w);
    }
  }

  ghost function Holders(s: State, log: seq<LogEntry>, k: nat): set<nat> {
    set y: nat | y < |s.nodes| && Agree(s.nodes[y].log, log, k)
  }

  // At every moment, every index a replica considers committed is held, with
  // everything before it, by a commit quorum.
  lemma CommittedOnQuorum(cfg: Config, states: seq<State>, events: seq<Event>, a: nat, i: nat, k: nat)
    requires IsAdmittedRun(cfg, Commits, states, events) && a < |states|
    requires i < cfg.n && 1 <= k <= states[a].nodes[i].commitIndex
    ensures |Holders(states[a], states[a].nodes[i].log, k)| >= CommitQuorum(cfg.n)
  {
    var s := states[a];
    var x := s.nodes[i];
    RunInv(cfg, Commits, states, events, a);
    assert NodeCommit(cfg, s, i) by { assert PartOk(cfg, Commits, s, NodePart(i)); }
    var t: nat, idx: nat :| CertifiedBy(cfg.n, s.hist, x.log, x.commitIndex, x.term, t, idx);
    var acked, holders := AckSet(cfg.n, s.hist, t, idx), Holders(s, x.log, k);
    forall y | y in acked ensures y in holders {
      AckedIsHeld(cfg, Commits, s, t, idx, y);
    }
    SubsetSize(acked, holders);
  }

  // Leader Append-Only: within a reign the leader's log only grows.
  lemma LeaderAppendOnly(cfg: Config, states: seq<State>, events: seq<Event>, a: nat, b: nat, i: nat)
    requires IsAdmittedRun(cfg, Logs, states, events) && a <= b < |states| && i < cfg.n
    requires states[a].nodes[i].role.Leader? && states[b].nodes[i].role.Leader?
    requires states[a].nodes[i].term == states[b].nodes[i].term
    ensures Agree(states[a].nodes[i].log, states[b].nodes[i].log, |states[a].nodes[i].log|)
  {
    RunInv(cfg, Logs, states, events, a);
    RunInv(cfg, Logs, states, events, b);
    RunGrows(cfg, Logs, states, events, a, b);
    assert PartOk(cfg, Logs, states[a], NodePart(i)) && PartOk(cfg, Logs, states[b], NodePart(i));
  }

  // ---- acknowledgements to clients ----

  ghost function AckedAt(cfg: Config, states: seq<State>, events: seq<Event>, i: nat, k: nat): seq<nat>
    requires IsRun(cfg, states, events) && k < |events|
  {
    assert StepAt(cfg, states, events, k);
    if Actor(events[k]) == i then Handle(cfg, states[k], events[k]).acked else []
  }

  // acked[k] are the indices for which replica i runs its acknowledgement loop at event k.
  ghost predicate IsAckTrace(cfg: Config, states: seq<State>, events: seq<Event>, i: nat, acked: seq<seq<nat>>)
    requires IsRun(cfg, states, events)
  {
    && |acked| == |events|
    && forall k {:trigger AckStep(cfg, states, events, i, acked, k)} :: 0 <= k < |events| ==>
         AckStep(cfg, states, events, i, acked, k)
  }

  ghost predicate AckStep(cfg: Config, states: seq<State>, events: seq<Event>, i: nat, acked: seq<seq<nat>>, k: nat)
    requires IsRun(cfg, states, events) && k < |events| == |acked|
  {
    acked[k] == AckedAt(cfg, states, events, i, k)
  }

  lemma StepTiles(cfg: Config, s: State, e: Event, i: nat)
    requires Enabled(cfg, s, e) && i < cfg.n
    requires var x, y := s.nodes[i], Step(cfg, s, e).nodes[i]; x.role.Leader? && y.role.Leader? && x.term == y.term
    ensures var x, y := s.nodes[i], Step(cfg, s, e).nodes[i];
            && x.commitIndex <= y.commitIndex
            && (if Actor(e) == i then Handle(cfg, s, e).acked else []) == Range(x.commitIndex, y.commitIndex)
  {
  }

  ghost predicate Reigns(states: seq<State>, i: nat, a: nat, b: nat)
    requires a <= b < |states| && forall k :: a <= k <= b ==> i < |states[k].nodes|
  {
    forall k :: a <= k <= b ==>
      states[k].nodes[i].role.Leader? && states[k].nodes[i].term == states[a].nodes[i].term
  }

  lemma EventTiles(cfg: Config, states: seq<State>, events: seq<Event>, i: nat, acked: seq<seq<nat>>, b: nat)
    requires IsRun(cfg, states, events) && 0 < b < |states| && i < cfg.n && IsAckTrace(cfg, states, events, i, acked)
    requires states[b - 1].nodes[i].role.Leader? && states[b].nodes[i].role.Leader?
    requires states[b - 1].nodes[i].term == states[b].nodes[i].term
    ensures states[b - 1].nodes[i].commitIndex <= states[b].nodes[i].commitIndex
    ensures acked[b - 1] == Range(states[b - 1].nodes[i].commitIndex, states[b].nodes[i].commitIndex)
  {
    assert StepAt(cfg, states, events, b - 1) && AckStep(cfg, states, events, i, acked, b - 1);
    StepTiles(cfg, states[b - 1], events[b - 1], i);
  }

  lemma RangeJoins(x: seq<nat>, y: seq<nat>, a: nat, b: nat, c: nat)
    requires a <= b <= c && x == Range(a, b) && y == Range(b, c)
    ensures x + y == Range(a, c)
  {
  }

  // Over a reign, in any run, the loops visit exactly the indices the commit
  // index passed, each once and in increasing order.
  lemma {:induction false} AcksTile(cfg: Config, states: seq<State>, events: seq<Event>, i: nat, acked: seq<seq<nat>>,
                                    a: nat, b: nat)
    requires IsRun(cfg, states, events) && a <= b < |states| && i < cfg.n && Reigns(states, i, a, b)
    requires IsAckTrace(cfg, states, events, i, acked)
    ensures states[a].nodes[i].commitIndex <= states[b].nodes[i].commitIndex
    ensures Flatten(acked[a..b]) == Range(states[a].nodes[i].commitIndex, states[b].nodes[i].commitIndex)
    decreases b
  {
    if a < b {
      AcksTile(cfg, states, events, i, acked, a, b - 1);
      EventTiles(cfg, states, events, i, acked, b);
      FlattenAppend(acked[a..b - 1], acked[b - 1]);
      assert acked[a..b] == acked[a..b - 1] + [acked[b - 1]];
      RangeJoins(Flatten(acked[a..b - 1]), acked[b - 1],
                 states[a].nodes[i].commitIndex, states[b - 1].nodes[i].commitIndex, states[b].nodes[i].commitIndex);
    }
  }

  // A request acknowledged to its client is in the log of every leader of every later term.
  lemma AcknowledgedIsDurable(cfg: Config, states: seq<State>, events: seq<Event>, a: nat, k: nat, b: nat, j: nat)
    requires IsAdmittedRun(cfg, Commits, states, events) && a < |events| && b < |states| && j < cfg.n
    requires StepAt(cfg, states, events, a) && k in Handle(cfg, states[a], events[a]).acked
    requires states[b].nodes[j].role.Leader?
    requires states[a + 1].nodes[Actor(events[a])].term < states[b].nodes[j].term
    ensures var log := states[a + 1].nodes[Actor(events[a])].log;
            1 <= k <= |log| && k <= |states[b].nodes[j].log| && states[b].nodes[j].log[k - 1] == log[k - 1]
  {
    var i := Actor(events[a]);
    assert StepAt(cfg, states, events, a);
    LeaderHasCommitted(cfg, states, events, a + 1, i, b, j);
  }
}
