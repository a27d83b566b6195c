// What each handler and timer callback of src/node.cpp does to its replica and
// which messages it sends, as functions.  Module Replica holds the
// imperative handlers, each proved to compute the function of the same name here.
module Handlers {
  import opened Types
  import opened LogOps
  import opened Batcher

  // `acked` lists the indices the acknowledgement loop of updated_commit_index visits.
  datatype Outcome = Outcome(node: NodeState, sent: seq<Msg>, acked: seq<nat>)

  predicate Sized(cfg: Config, x: NodeState) {
    |x.nextIndex| == cfg.n && |x.matchIndex| == cfg.n
  }

  function Quiet(x: NodeState): Outcome { Outcome(x, [], []) }

  // The shared part of every move to a larger term.
  function AdoptTerm(x: NodeState, term: nat): NodeState {
    x.(term := term, role := Follower, votedFor := None, petitions := map[], petitionCount := 0)
  }

  // ---- election ----

  predicate MayStand(cfg: Config, i: nat, x: NodeState) {
    && (x.term == 0 && x.leader.None? ==> i in cfg.initialEligible)
    && (cfg.eligible != {} ==> i in cfg.eligible)
  }

  function OnTimeout(cfg: Config, i: nat, x: NodeState): Outcome {
    if !MayStand(cfg, i, x) then Quiet(x)
    else
      var y := x.(term := x.term + 1, role := Candidate, leader := None, votedFor := Some(i),
                  votesReceived := 0, petitions := map[], petitionCount := 0);
      Outcome(y, seq(cfg.n, d requires 0 <= d => RequestVote(i, d, y.term, |y.log|, LastTerm(y.log), false)), [])
  }

  predicate UpToDate(lastLogTerm: nat, lastLogIndex: nat, log: seq<LogEntry>) {
    lastLogTerm > LastTerm(log) || (lastLogTerm == LastTerm(log) && lastLogIndex >= |log|)
  }

  function OnRequestVote(i: nat, x: NodeState, m: Msg): Outcome
    requires m.RequestVote?
  {
    if m.term < x.term then Outcome(x, [VoteResponse(i, m.src, x.term, false)], [])
    else if m.isPetition then
      Quiet(if x.role.Leader? then x.(role := Follower, leader := None) else x)
    else
      var y := if m.term > x.term then AdoptTerm(x, m.term).(leader := None) else x;
      var granted := (y.votedFor.None? || y.votedFor == Some(m.src)) && UpToDate(m.lastLogTerm, m.lastLogIndex, y.log);
      Outcome(if granted then y.(votedFor := Some(m.src)) else y, [VoteResponse(i, m.src, y.term, granted)], [])
  }

  // Counts messages, not voters, and does not look at an older term.
  function OnVoteResponse(cfg: Config, x: NodeState, m: Msg): Outcome
    requires m.VoteResponse?
  {
    if !x.role.Candidate? then Quiet(x)
    else if m.term > x.term then Quiet(AdoptTerm(x, m.term))
    else if !m.granted then Quiet(x)
    else
      var votes := x.votesReceived + 1;
      Quiet(x.(votesReceived := votes,
               leaderTasks := if votes >= ElectionQuorum(cfg.n) then x.leaderTasks + 1 else x.leaderTasks))
  }

  // become_leader, run from a queue without looking at role or term.
  function OnLeaderTask(cfg: Config, i: nat, x: NodeState): Outcome
    requires Sized(cfg, x) && x.leaderTasks > 0
  {
    Quiet(x.(leaderTasks := x.leaderTasks - 1, role := Leader, leader := Some(i), votesReceived := 0,
             petitions := map[],
             nextIndex := seq(cfg.n, d requires 0 <= d < cfg.n => if d == i then x.nextIndex[d] else |x.log| + 1),
             matchIndex := seq(cfg.n, d requires 0 <= d < cfg.n => if d == i then x.matchIndex[d] else 0)))
  }

  function OnFailure(x: NodeState): Outcome {
    Quiet(x.(role := Follower, leader := None))
  }

  // ---- replication, leader's side ----

  function HeartbeatTo(i: nat, x: NodeState, d: nat): Msg
    requires d < |x.nextIndex|
  {
    var prev := x.nextIndex[d] - 1;
    AppendEntries(i, d, x.term, prev, TermAt(x.log, prev), [], x.commitIndex)
  }

  function OnHeartbeat(cfg: Config, i: nat, x: NodeState): Outcome
    requires Sized(cfg, x)
  {
    if !x.role.Leader? then Quiet(x)
    else Outcome(x, seq(cfg.n, d requires 0 <= d < cfg.n => HeartbeatTo(i, x, d)), [])
  }

  // The entries cached for a follower whose next index is `start`.
  function Pending(log: seq<LogEntry>, start: int): seq<LogEntry> {
    if 1 <= start <= |log| then log[start - 1..] else []
  }

  ghost predicate ProposalsEnd(cfg: Config, i: nat, x: NodeState, skip: set<nat>)
    requires Sized(cfg, x)
  {
    forall d :: 0 <= d < cfg.n && d != i && d !in skip ==> AllFit(Pending(x.log, x.nextIndex[d]), cfg.entrySize)
  }

  function ProposalAt(i: nat, x: NodeState, d: nat, prev: int, entries: seq<LogEntry>): Msg {
    AppendEntries(i, d, x.term, prev, TermAt(x.log, prev), entries, x.commitIndex)
  }

  function ProposalsTo(cfg: Config, i: nat, x: NodeState, d: nat): seq<Msg>
    requires Sized(cfg, x) && d < cfg.n && AllFit(Pending(x.log, x.nextIndex[d]), cfg.entrySize)
  {
    var batches := Batches(Pending(x.log, x.nextIndex[d]), cfg.entrySize);
    var starts := Starts(batches, 0);
    seq(|batches|, b requires 0 <= b < |batches| => ProposalAt(i, x, d, x.nextIndex[d] - 1 + starts[b], batches[b]))
  }

  function ProposalsFor(cfg: Config, i: nat, x: NodeState, skip: set<nat>, d: nat): seq<Msg>
    requires Sized(cfg, x) && d < cfg.n && ProposalsEnd(cfg, i, x, skip)
  {
    if d == i || d in skip then [] else ProposalsTo(cfg, i, x, d)
  }

  function Parts(cfg: Config, i: nat, x: NodeState, skip: set<nat>, k: nat): seq<seq<Msg>>
    requires Sized(cfg, x) && k <= cfg.n && ProposalsEnd(cfg, i, x, skip)
  {
    seq(k, d requires 0 <= d < k => ProposalsFor(cfg, i, x, skip, d))
  }

  // What the loop over the followers has sent to those before k.
  function ProposalsBelow(cfg: Config, i: nat, x: NodeState, skip: set<nat>, k: nat): seq<Msg>
    requires Sized(cfg, x) && k <= cfg.n && ProposalsEnd(cfg, i, x, skip)
  {
    Flatten(Parts(cfg, i, x, skip, k))
  }

  lemma NextProposals(cfg: Config, i: nat, x: NodeState, skip: set<nat>, k: nat)
    requires Sized(cfg, x) && k < cfg.n && ProposalsEnd(cfg, i, x, skip)
    ensures ProposalsBelow(cfg, i, x, skip, k + 1)
            == ProposalsBelow(cfg, i, x, skip, k) + ProposalsFor(cfg, i, x, skip, k)
  {
    FlattenAppend(Parts(cfg, i, x, skip, k), ProposalsFor(cfg, i, x, skip, k));
    assert Parts(cfg, i, x, skip, k + 1) == Parts(cfg, i, x, skip, k) + [ProposalsFor(cfg, i, x, skip, k)];
  }

  function Appended(x: NodeState, command: string, clientId: int, requestId: int): NodeState {
    x.(log := x.log + [LogEntry(x.term, command, clientId, requestId)], clients := x.clients + {clientId})
  }

  // `skip` is the set of followers passed over: those in flight and the unreachable one.
  function OnClientRequest(cfg: Config, i: nat, x: NodeState, command: string, clientId: int, requestId: int,
                           skip: set<nat>): Outcome
    requires Sized(cfg, x)
    requires x.role.Leader? ==> ProposalsEnd(cfg, i, Appended(x, command, clientId, requestId), skip)
  {
    if !x.role.Leader? then Quiet(x)
    else
      var y := Appended(x, command, clientId, requestId);
      Outcome(y, ProposalsBelow(cfg, i, y, skip, cfg.n), [])
  }

  // ---- replication, follower's side ----

  function Min(a: nat, b: nat): nat { if a <= b then a else b }

  // `self` messages are dropped, but only after the stale check.
  function OnAppendEntries(i: nat, x: NodeState, m: Msg): Outcome
    requires m.AppendEntries?
  {
    if m.term < x.term then Outcome(x, [AppendResponse(i, m.src, x.term, false, 0)], [])
    else if m.src == i then Quiet(x)
    else
      var y := x.(term := m.term, role := Follower, leader := Some(m.src), votedFor := None,
                  petitions := if m.term > x.term then map[] else x.petitions,
                  petitionCount := if m.term > x.term then 0 else x.petitionCount);
      if !ContainsEntry(x.log, m.prevLogIndex, m.prevLogTerm) then
        Outcome(y, [AppendResponse(i, m.src, y.term, false, 0)], [])
      else
        var log := Splice(x.log, m.prevLogIndex, m.entries);
        var commit := if m.leaderCommit > x.commitIndex then Min(m.leaderCommit, |log|) else x.commitIndex;
        Outcome(y.(log := log, commitIndex := commit),
                [AppendResponse(i, m.src, y.term, true, m.prevLogIndex + |m.entries|)], [])
  }

  // ---- commit ----

  function Replicas(matchIndex: seq<int>, index: nat): set<nat> {
    set f: nat | f < |matchIndex| && matchIndex[f] >= index
  }

  // The leader counts itself apart from its peers' match indices.
  predicate Committable(cfg: Config, x: NodeState, index: nat) {
    && 1 <= index <= |x.log|
    && 1 + |Replicas(x.matchIndex, index)| >= CommitQuorum(cfg.n)
    && x.log[index - 1].term == x.term
  }

  // The last committable index among from+1..upTo, `from` if there is none.
  function LastCommittable(cfg: Config, x: NodeState, from: nat, upTo: nat): (c: nat)
    requires from <= upTo
    ensures from <= c <= upTo
    ensures c > from ==> Committable(cfg, x, c)
    ensures forall k :: c < k <= upTo ==> !Committable(cfg, x, k)
    decreases upTo
  {
    if upTo == from then from
    else if Committable(cfg, x, upTo) then upTo
    else LastCommittable(cfg, x, from, upTo - 1)
  }

  function NewCommit(cfg: Config, x: NodeState): (c: nat)
    ensures c >= x.commitIndex && (c > x.commitIndex ==> Committable(cfg, x, c))
    ensures forall k :: c < k <= |x.log| ==> !Committable(cfg, x, k)
  {
    if x.commitIndex <= |x.log| then LastCommittable(cfg, x, x.commitIndex, |x.log|) else x.commitIndex
  }

  function Range(from: nat, upTo: nat): (r: seq<nat>)
    requires from <= upTo
    ensures |r| == upTo - from
  {
    seq(upTo - from, k requires 0 <= k => from + 1 + k)
  }

  function Max(a: int, b: int): int { if a >= b then a else b }

  function Matched(x: NodeState, f: nat, index: nat): NodeState
    requires f < |x.nextIndex| && f < |x.matchIndex|
  {
    var matched := Max(x.matchIndex[f], index);
    x.(matchIndex := x.matchIndex[f := matched], nextIndex := x.nextIndex[f := matched + 1])
  }

  // Tests only for a larger term; a response of an older term is processed.
  function OnAppendResponse(cfg: Config, x: NodeState, m: Msg): Outcome
    requires m.AppendResponse? && Sized(cfg, x) && m.src < cfg.n
  {
    if !x.role.Leader? then Quiet(x)
    else if m.term > x.term then Quiet(AdoptTerm(x, m.term))
    else if m.success then
      var y := Matched(x, m.src, m.matchIndex);
      var c := NewCommit(cfg, y);
      Outcome(y.(commitIndex := c), [], Range(y.commitIndex, c))
    else
      Quiet(x.(nextIndex := x.nextIndex[m.src := Max(1, x.nextIndex[m.src] - 1)]))
  }

  // ---- petitions ----

  // get_latency_to_peer: -1 when there is no sample
  function Latency(rtt: map<nat, real>, peer: nat): real {
    if peer in rtt then rtt[peer] else -1.0
  }

  function LatencyToLeader(rtt: map<nat, real>, leader: Option<nat>): real {
    match leader case Some(l) => Latency(rtt, l) case None => -1.0
  }

  // The petition part of compute_penalty_score; `proposed` is the node with the
  // lowest penalty score other than the leader.
  function OnPenaltyTimer(cfg: Config, i: nat, x: NodeState, proposed: nat, rtt: map<nat, real>): Outcome {
    var latency := LatencyToLeader(rtt, x.leader);
    if latency > cfg.latencyThreshold && !x.role.Leader? && Some(proposed) != x.leader && proposed != i then
      Outcome(x, [Petition(i, proposed, x.term, x.leader, proposed, latency)], [])
    else Quiet(x)
  }

  predicate PetitionHolds(petitions: map<nat, real>, rtt: map<nat, real>) {
    forall s :: s in petitions ==> Latency(rtt, s) <= petitions[s]
  }

  function OnPetition(cfg: Config, i: nat, x: NodeState, m: Msg, rtt: map<nat, real>): Outcome
    requires m.Petition?
  {
    if m.term != x.term || m.currentLeader != x.leader || m.proposed != i then Quiet(x)
    else
      var y := x.(petitions := x.petitions[m.src := m.latency]);
      if m.src in x.petitions then Quiet(y)
      else
        var z := y.(petitionCount := |y.petitions|);
        if z.petitionCount >= CommitQuorum(cfg.n) - 1 && PetitionHolds(z.petitions, rtt) && z.leader.Some? then
          Outcome(z, [RequestVote(i, z.leader.value, z.term, |z.log|, LastTerm(z.log), true)], [])
        else Quiet(z)
  }
}
