// The replica as the object it is in src/node.cpp and src/raftLog.cpp: fields
// that the handlers overwrite and loops that move cursors.  Each method is
// proved to compute the function of module Handlers with the matching name.
module Replica {
  import opened Types
  import L = LogOps
  import B = Batcher
  import H = Handlers

  class RaftLog {
    var log: seq<LogEntry>
    var commitIndex: nat

    constructor ()
      ensures log == [] && commitIndex == 0
    {
      log, commitIndex := [], 0;
    }

    method AppendEntry(entry: LogEntry)
      modifies this`log
      ensures log == old(log) + [entry]
    {
      log := log + [entry];
    }

    function GetLastLogIndex(): nat
      reads this`log
    {
      |log|
    }

    // With the last index, a position the log contains.
    function GetLastLogTerm(): (t: nat)
      reads this`log
      ensures ContainsEntry(GetLastLogIndex(), t)
      ensures log == [] ==> t == 0
    {
      if |log| == 0 then 0 else log[|log| - 1].term
    }

    function GetEntry(index: int): (r: Option<LogEntry>)
      reads this`log
      ensures r.Some? <==> 1 <= index <= |log|
      ensures r.Some? ==> log == log[..index - 1] + [r.value] + log[index..]
    {
      if index <= 0 || index > |log| then None else Some(log[index - 1])
    }

    predicate ContainsEntry(index: int, term: nat)
      reads this`log
      ensures ContainsEntry(index, term)
              <==> index == 0 || (GetEntry(index).Some? && GetEntry(index).value.term == term)
    {
      if index == 0 then true
      else if index < 0 || index > |log| then false
      else log[index - 1].term == term
    }

    method DeleteEntriesStartingFrom(index: int)
      modifies this`log
      ensures log == if 1 <= index <= |old(log)| then old(log)[..index - 1] else old(log)
    {
      if index <= 0 || index > |log| {
        return;
      }
      log := log[..index - 1];
    }

    // An unconditional store.
    method AdvanceCommitIndex(index: nat)
      modifies this`commitIndex
      ensures commitIndex == index
    {
      commitIndex := index;
    }

    // The truncate-or-append loop of handle_append_entries.
    method Reconcile(prev: nat, entries: seq<LogEntry>)
      requires prev <= |log|
      modifies this`log
      ensures log == L.Splice(old(log), prev, entries)
    {
      ghost var was := log;
      ghost var k := L.Settled(was, prev, entries);
      var insertion := prev + 1;
      var i := 0;
      while i < |entries|
        invariant 0 <= i <= |entries| && insertion == prev + 1 + i
        invariant log == if i <= k then was else was[..prev + k] + entries[k..i]
      {
        var existing := GetEntry(insertion);
        if existing.Some? {
          if existing.value.term != entries[i].term {
            DeleteEntriesStartingFrom(insertion);
            AppendEntry(entries[i]);
          }
        } else {
          AppendEntry(entries[i]);
        }
        insertion := insertion + 1;
        i := i + 1;
      }
    }
  }

  datatype Reply = Reply(clientId: int, requestId: int)

  // The answer of a replica that is not the leader, with the leader it knows.
  datatype Refusal = Refusal(leader: Option<nat>, clientId: int, requestId: int)

  // The replies of the acknowledgement loop: one per visited entry of a known client.
  function Replies(log: seq<LogEntry>, clients: set<int>, from: nat, upTo: nat): seq<Reply>
    requires from <= upTo
    decreases upTo
  {
    if from == upTo then []
    else
      Replies(log, clients, from, upTo - 1)
      + match L.GetEntry(log, upTo)
        case Some(e) => if e.clientId in clients then [Reply(e.clientId, e.requestId)] else []
        case None => []
  }

  class Node {
    const cfg: Config
    const self: nat
    const raftLog: RaftLog
    var term: nat
    var role: Role
    var votedFor: Option<nat>
    var votesReceived: nat
    var leader: Option<nat>
    var nextIndex: seq<int>
    var matchIndex: seq<int>
    var petitions: map<nat, real>
    var petitionCount: nat
    var clients: set<int>
    var leaderTasks: nat

    ghost function State(): NodeState
      reads this, raftLog
    {
      NodeState(term, role, votedFor, votesReceived, leader, raftLog.log, raftLog.commitIndex,
                nextIndex, matchIndex, petitions, petitionCount, clients, leaderTasks)
    }

    ghost predicate Valid()
      reads this, raftLog
    {
      self < cfg.n && H.Sized(cfg, State())
    }

    constructor (cfg: Config, self: nat)
      requires self < cfg.n
      ensures Valid() && fresh(raftLog) && this.cfg == cfg && this.self == self
      ensures State() == InitNode(cfg.n)
    {
      this.cfg, this.self := cfg, self;
      raftLog := new RaftLog();
      term, role, votedFor, votesReceived, leader := 0, Follower, None, 0, None;
      nextIndex, matchIndex := seq(cfg.n, _ => 0), seq(cfg.n, _ => 0);
      petitions, petitionCount, clients, leaderTasks := map[], 0, {}, 0;
    }

    // ---- election ----

    method ElectionTimeout() returns (sent: seq<Msg>)
      requires Valid()
      modifies this
      ensures Valid()
      ensures var out := H.OnTimeout(cfg, self, old(State())); State() == out.node && sent == out.sent
    {
      sent := [];
      if term == 0 && leader.None? {
        if self !in cfg.initialEligible {
          return;
        }
      }
      if cfg.eligible != {} {
        if self !in cfg.eligible {
          return;
        }
      }
      term := term + 1;
      role := Candidate;
      leader := None;
      votedFor := Some(self);
      votesReceived := 0;
      petitions := map[];
      petitionCount := 0;
      var d := 0;
      while d < cfg.n
        invariant 0 <= d <= cfg.n && |sent| == d
        invariant forall k :: 0 <= k < d ==>
          sent[k] == RequestVote(self, k, term, |raftLog.log|, L.LastTerm(raftLog.log), false)
      {
        sent := sent + [RequestVote(self, d, term, raftLog.GetLastLogIndex(), raftLog.GetLastLogTerm(), false)];
        d := d + 1;
      }
    }

    method HandleRequestVote(m: Msg) returns (sent: seq<Msg>)
      requires Valid() && m.RequestVote?
      modifies this
      ensures Valid()
      ensures var out := H.OnRequestVote(self, old(State()), m); State() == out.node && sent == out.sent
    {
      if m.term < term {
        sent := [VoteResponse(self, m.src, term, false)];
        return;
      }
      if m.isPetition {
        if role.Leader? {
          role := Follower;
          leader := None;
        }
        sent := [];
        return;
      }
      if m.term > term {
        term := m.term;
        petitions := map[];
        petitionCount := 0;
        role := Follower;
        votedFor := None;
        leader := None;
      }
      var lastIndex, lastTerm := raftLog.GetLastLogIndex(), raftLog.GetLastLogTerm();
      var upToDate := m.lastLogTerm > lastTerm || (m.lastLogTerm == lastTerm && m.lastLogIndex >= lastIndex);
      var granted := false;
      if (votedFor.None? || votedFor == Some(m.src)) && upToDate {
        granted := true;
        votedFor := Some(m.src);
      }
      sent := [VoteResponse(self, m.src, term, granted)];
    }

    method HandleVoteResponse(m: Msg)
      requires Valid() && m.VoteResponse?
      modifies this
      ensures Valid() && State() == H.OnVoteResponse(cfg, old(State()), m).node
    {
      if !role.Candidate? {
        return;
      }
      if m.term > term {
        term := m.term;
        role := Follower;
        petitions := map[];
        petitionCount := 0;
        votedFor := None;
        return;
      }
      if m.granted {
        votesReceived := votesReceived + 1;
        if votesReceived >= cfg.n / 2 + 1 {
          leaderTasks := leaderTasks + 1;
        }
      }
    }

    method BecomeLeader()
      requires Valid() && leaderTasks > 0
      modifies this
      ensures Valid() && State() == H.OnLeaderTask(cfg, self, old(State())).node
    {
      leaderTasks := leaderTasks - 1;
      role := Leader;
      leader := Some(self);
      votesReceived := 0;
      petitions := map[];
      var next, matched := nextIndex, matchIndex;
      var d := 0;
      while d < cfg.n
        invariant 0 <= d <= cfg.n && |next| == |matched| == cfg.n
        invariant forall k :: 0 <= k < cfg.n ==>
          next[k] == (if k < d && k != self then |raftLog.log| + 1 else nextIndex[k])
        invariant forall k :: 0 <= k < cfg.n ==> matched[k] == if k < d && k != self then 0 else matchIndex[k]
      {
        if d != self {
          next := next[d := raftLog.GetLastLogIndex() + 1];
          matched := matched[d := 0];
        }
        d := d + 1;
      }
      nextIndex, matchIndex := next, matched;
      assert nextIndex == H.OnLeaderTask(cfg, self, old(State())).node.nextIndex;
      assert matchIndex == H.OnLeaderTask(cfg, self, old(State())).node.matchIndex;
    }

    method FailureTimer()
      requires Valid()
      modifies this
      ensures Valid() && State() == H.OnFailure(old(State())).node
    {
      role := Follower;
      leader := None;
    }

    // ---- replication, leader's side ----

    method PrevTerm(prev: int) returns (t: nat)
      ensures t == L.TermAt(raftLog.log, prev)
    {
      t := 0;
      if prev > 0 {
        var entry := raftLog.GetEntry(prev);
        if entry.Some? {
          t := entry.value.term;
        }
      }
    }

    method SendHeartbeat() returns (sent: seq<Msg>)
      requires Valid()
      ensures sent == H.OnHeartbeat(cfg, self, State()).sent
    {
      sent := [];
      if !role.Leader? {
        return;
      }
      var d := 0;
      while d < cfg.n
        invariant 0 <= d <= cfg.n && |sent| == d
        invariant forall k :: 0 <= k < d ==> sent[k] == H.HeartbeatTo(self, State(), k)
      {
        var prev := nextIndex[d] - 1;
        var prevTerm := PrevTerm(prev);
        sent := sent + [AppendEntries(self, d, term, prev, prevTerm, [], raftLog.commitIndex)];
        d := d + 1;
      }
    }

    // The entries cached for one follower.
    method CacheEntries(start: int) returns (cached: seq<LogEntry>)
      ensures cached == H.Pending(raftLog.log, start)
    {
      cached := [];
      var idx := start;
      while idx <= raftLog.GetLastLogIndex()
        invariant idx >= start
        invariant start >= 1 ==> idx <= |raftLog.log| + 1 || idx == start
        invariant cached == if 1 <= start <= |raftLog.log| then raftLog.log[start - 1..idx - 1] else []
        invariant start < 1 ==> idx == start
      {
        var entry := raftLog.GetEntry(idx);
        if entry.None? {
          break;
        }
        cached := cached + [entry.value];
        idx := idx + 1;
      }
    }

    method SendBatches(d: nat, start: int, batches: seq<seq<LogEntry>>, firsts: seq<nat>) returns (sent: seq<Msg>)
      requires |firsts| == |batches|
      ensures |sent| == |batches|
      ensures forall b :: 0 <= b < |batches| ==>
        sent[b] == H.ProposalAt(self, State(), d, start - 1 + firsts[b], batches[b])
    {
      sent := [];
      var b := 0;
      while b < |batches|
        invariant 0 <= b <= |batches| && |sent| == b
        invariant forall k :: 0 <= k < b ==>
          sent[k] == H.ProposalAt(self, State(), d, start - 1 + firsts[k], batches[k])
      {
        var prev := start - 1 + firsts[b];
        var prevTerm := PrevTerm(prev);
        sent := sent + [AppendEntries(self, d, term, prev, prevTerm, batches[b], raftLog.commitIndex)];
        b := b + 1;
      }
    }

    method SendProposalsTo(d: nat) returns (sent: seq<Msg>)
      requires Valid() && d < cfg.n && B.AllFit(H.Pending(raftLog.log, nextIndex[d]), cfg.entrySize)
      ensures sent == H.ProposalsTo(cfg, self, State(), d)
    {
      var start := nextIndex[d];
      var cached := CacheEntries(start);
      var batches, firsts := B.Stream(cached, cfg.entrySize);
      sent := SendBatches(d, start, batches, firsts);
    }

    // `skip` holds the followers that are in flight or passed over.
    method HandleClientRequest(command: string, clientId: int, requestId: int, skip: set<nat>)
      returns (sent: seq<Msg>, refusal: Option<Refusal>)
      requires Valid()
      requires role.Leader? ==> H.ProposalsEnd(cfg, self, H.Appended(State(), command, clientId, requestId), skip)
      modifies this, raftLog
      ensures Valid()
      ensures var out := H.OnClientRequest(cfg, self, old(State()), command, clientId, requestId, skip);
              State() == out.node && sent == out.sent
      ensures refusal == if old(role.Leader?) then None else Some(Refusal(old(leader), clientId, requestId))
    {
      sent, refusal := [], None;
      if !role.Leader? {
        refusal := Some(Refusal(leader, clientId, requestId));
        return;
      }
      clients := clients + {clientId};
      raftLog.AppendEntry(LogEntry(term, command, clientId, requestId));
      ghost var y := H.Appended(old(State()), command, clientId, requestId);
      assert State() == y;
      var d := 0;
      while d < cfg.n
        invariant 0 <= d <= cfg.n
        invariant State() == y && Valid()
        invariant sent == H.ProposalsBelow(cfg, self, y, skip, d)
      {
        H.NextProposals(cfg, self, y, skip, d);
        if d != self && d !in skip {
          var more := SendProposalsTo(d);
          sent := sent + more;
        }
        d := d + 1;
      }
    }

    // ---- replication, follower's side ----

    method HandleAppendEntries(m: Msg) returns (sent: seq<Msg>)
      requires Valid() && m.AppendEntries?
      modifies this, raftLog
      ensures Valid()
      ensures var out := H.OnAppendEntries(self, old(State()), m); State() == out.node && sent == out.sent
    {
      if m.term < term {
        sent := [AppendResponse(self, m.src, term, false, 0)];
        return;
      }
      if m.src == self {
        sent := [];
        return;
      }
      if m.term > term {
        term := m.term;
        petitions := map[];
        petitionCount := 0;
      }
      term := m.term;
      role := Follower;
      leader := Some(m.src);
      votedFor := None;
      if !raftLog.ContainsEntry(m.prevLogIndex, m.prevLogTerm) {
        sent := [AppendResponse(self, m.src, term, false, 0)];
        return;
      }
      AcceptEntries(m.prevLogIndex, m.entries, m.leaderCommit);
      sent := [AppendResponse(self, m.src, term, true, m.prevLogIndex + |m.entries|)];
    }

    // The log and the commit index after a message whose previous entry matches.
    method AcceptEntries(prev: nat, entries: seq<LogEntry>, leaderCommit: nat)
      requires Valid() && prev <= |raftLog.log|
      modifies raftLog
      ensures Valid()
      ensures raftLog.log == L.Splice(old(raftLog.log), prev, entries)
      ensures raftLog.commitIndex == if leaderCommit > old(raftLog.commitIndex) then H.Min(leaderCommit, |raftLog.log|)
                                     else old(raftLog.commitIndex)
    {
      raftLog.Reconcile(prev, entries);
      if leaderCommit > raftLog.commitIndex {
        raftLog.AdvanceCommitIndex(H.Min(leaderCommit, raftLog.GetLastLogIndex()));
      }
    }

    // ---- commit ----

    method CountReplicas(index: nat) returns (count: nat)
      requires Valid()
      ensures count == 1 + |H.Replicas(matchIndex, index)|
    {
      count := 1;
      var f := 0;
      ghost var seen: set<nat> := {};
      while f < cfg.n
        invariant 0 <= f <= cfg.n
        invariant seen == (set g: nat | g < f && matchIndex[g] >= index)
        invariant count == 1 + |seen|
      {
        if matchIndex[f] >= index {
          count := count + 1;
          seen := seen + {f};
        }
        f := f + 1;
      }
      assert seen == H.Replicas(matchIndex, index);
    }

    method FindCommit() returns (newCommit: nat)
      requires Valid()
      ensures newCommit == H.NewCommit(cfg, State())
    {
      var oldCommit := raftLog.commitIndex;
      newCommit := oldCommit;
      var last := raftLog.GetLastLogIndex();
      var i := oldCommit + 1;
      while i <= last
        invariant oldCommit + 1 <= i
        invariant oldCommit <= last ==> i <= last + 1
        invariant newCommit == if oldCommit > last then oldCommit
                               else H.LastCommittable(cfg, State(), oldCommit, i - 1)
      {
        var count := CountReplicas(i);
        if count >= (cfg.n + 1) / 2 {
          var entry := raftLog.GetEntry(i);
          if entry.Some? && entry.value.term == term {
            newCommit := i;
          }
        }
        i := i + 1;
      }
    }

    // `acked` records the indices the loop visits.
    method AckClients(from: nat, upTo: nat) returns (acked: seq<nat>, replies: seq<Reply>)
      requires from <= upTo
      ensures acked == H.Range(from, upTo)
      ensures replies == Replies(raftLog.log, clients, from, upTo)
    {
      acked, replies := [], [];
      var idx := from + 1;
      while idx <= upTo
        invariant from + 1 <= idx <= upTo + 1
        invariant acked == H.Range(from, idx - 1)
        invariant replies == Replies(raftLog.log, clients, from, idx - 1)
      {
        acked := acked + [idx];
        var entry := raftLog.GetEntry(idx);
        if entry.Some? {
          if entry.value.clientId in clients {
            replies := replies + [Reply(entry.value.clientId, entry.value.requestId)];
          }
        }
        idx := idx + 1;
      }
    }

    method UpdateCommitIndex() returns (acked: seq<nat>, replies: seq<Reply>)
      requires Valid()
      modifies raftLog
      ensures Valid() && raftLog.log == old(raftLog.log)
      ensures raftLog.commitIndex == H.NewCommit(cfg, old(State()))
      ensures acked == H.Range(old(raftLog.commitIndex), raftLog.commitIndex)
      ensures replies == Replies(raftLog.log, clients, old(raftLog.commitIndex), raftLog.commitIndex)
    {
      acked, replies := [], [];
      var oldCommit := raftLog.commitIndex;
      var newCommit := FindCommit();
      if newCommit != raftLog.commitIndex {
        raftLog.AdvanceCommitIndex(newCommit);
        acked, replies := AckClients(oldCommit, newCommit);
      }
    }

    method HandleAppendResponse(m: Msg) returns (acked: seq<nat>, replies: seq<Reply>)
      requires Valid() && m.AppendResponse? && m.src < cfg.n
      modifies this, raftLog
      ensures Valid()
      ensures var out := H.OnAppendResponse(cfg, old(State()), m); State() == out.node && acked == out.acked
      ensures old(raftLog.commitIndex) <= raftLog.commitIndex
      ensures replies == Replies(raftLog.log, clients, old(raftLog.commitIndex), raftLog.commitIndex)
    {
      acked, replies := [], [];
      if !role.Leader? {
        return;
      }
      if m.term > term {
        term := m.term;
        role := Follower;
        votedFor := None;
        petitions := map[];
        petitionCount := 0;
        return;
      }
      if m.success {
        matchIndex := matchIndex[m.src := H.Max(matchIndex[m.src], m.matchIndex)];
        nextIndex := nextIndex[m.src := matchIndex[m.src] + 1];
        assert State() == H.Matched(old(State()), m.src, m.matchIndex);
        acked, replies := UpdateCommitIndex();
      } else {
        nextIndex := nextIndex[m.src := H.Max(1, nextIndex[m.src] - 1)];
      }
    }

    // ---- petitions ----

    // A node other than the leader with a lowest penalty score.
    ghost predicate Preferred(scores: map<nat, real>, p: nat)
      reads this
    {
      p in scores && Some(p) != leader && forall q :: q in scores && Some(q) != leader ==> scores[p] <= scores[q]
    }

    // The loop over the known scores, in any order.
    method ChooseProposed(scores: map<nat, real>) returns (proposed: Option<nat>)
      ensures proposed.None? <==> forall p :: p in scores ==> Some(p) == leader
      ensures proposed.Some? ==> Preferred(scores, proposed.value)
    {
      proposed := None;
      var todo := scores.Keys;
      while todo != {}
        invariant todo <= scores.Keys
        invariant proposed.None? ==> forall p :: p in scores && p !in todo ==> Some(p) == leader
        invariant proposed.Some? ==>
          && proposed.value in scores && Some(proposed.value) != leader
          && forall p :: p in scores && p !in todo && Some(p) != leader ==> scores[proposed.value] <= scores[p]
        decreases todo
      {
        var p :| p in todo;
        if Some(p) != leader && (proposed.None? || scores[p] < scores[proposed.value]) {
          proposed := Some(p);
        }
        todo := todo - {p};
      }
    }

    method PenaltyTimer(scores: map<nat, real>, rtt: map<nat, real>) returns (sent: seq<Msg>, proposed: Option<nat>)
      requires Valid()
      ensures proposed.Some? ==>
        && Preferred(scores, proposed.value)
        && sent == H.OnPenaltyTimer(cfg, self, State(), proposed.value, rtt).sent
      ensures proposed.None? ==>
        && sent == []
        && (H.LatencyToLeader(rtt, leader) <= cfg.latencyThreshold || role.Leader?
            || forall p :: p in scores ==> Some(p) == leader)
    {
      sent, proposed := [], None;
      var latency := H.LatencyToLeader(rtt, leader);
      if latency > cfg.latencyThreshold && !role.Leader? {
        proposed := ChooseProposed(scores);
        if proposed.Some? && proposed.value != self {
          sent := [Petition(self, proposed.value, term, leader, proposed.value, latency)];
        }
      }
    }

    // The loop over the recorded petitions, in any order.
    method CheckPetitions(rtt: map<nat, real>) returns (ok: bool)
      ensures ok == H.PetitionHolds(petitions, rtt)
    {
      ok := true;
      var todo := petitions.Keys;
      while todo != {}
        invariant todo <= petitions.Keys && ok
        invariant forall s :: s in petitions && s !in todo ==> H.Latency(rtt, s) <= petitions[s]
        decreases todo
      {
        var s :| s in todo;
        if H.Latency(rtt, s) > petitions[s] {
          ok := false;
          break;
        }
        todo := todo - {s};
      }
    }

    method HandlePetition(m: Msg, rtt: map<nat, real>) returns (sent: seq<Msg>)
      requires Valid() && m.Petition?
      modifies this
      ensures Valid()
      ensures var out := H.OnPetition(cfg, self, old(State()), m, rtt); State() == out.node && sent == out.sent
    {
      sent := [];
      if m.term != term {
        return;
      }
      if m.currentLeader != leader {
        return;
      }
      if m.proposed != self {
        return;
      }
      var seen := m.src in petitions;
      petitions := petitions[m.src := m.latency];
      if seen {
        return;
      }
      petitionCount := |petitions|;
      if petitionCount >= (cfg.n + 1) / 2 - 1 {
        var ok := CheckPetitions(rtt);
        if ok && leader.Some? {
          sent := [RequestVote(self, leader.value, term, raftLog.GetLastLogIndex(), raftLog.GetLastLogTerm(), true)];
        }
      }
    }
  }
}
