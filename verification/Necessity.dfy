// Why the assumptions are there: for each of A2..A6 a run of the code in which
// every other assumption holds at every event and a safety property fails.
module Necessity {
  import opened Types
  import opened LogOps
  import opened Handlers
  import opened Cluster
  import opened Scripts
  import opened Checker

  function Setup(n: nat): Config {
    Config(n, {0, 1, 2, 3, 4}, {}, 0.0, (e: LogEntry) => 0)
  }

  // ---- what goes wrong ----

  ghost predicate TwoLeaders(s: State) {
    exists i, j :: 0 <= i < j < |s.nodes| && s.nodes[i].role.Leader? && s.nodes[j].role.Leader?
                   && s.nodes[i].term == s.nodes[j].term
  }

  // Two replicas consider different entries committed at the same index.
  ghost predicate Diverged(s: State) {
    exists i, j :: 0 <= i < j < |s.nodes|
                   && !Agree(s.nodes[i].log, s.nodes[j].log, Min(s.nodes[i].commitIndex, s.nodes[j].commitIndex))
  }

  // ---- stations of a run ----

  function Entry(term: nat, command: string): LogEntry { LogEntry(term, command, 0, 0) }

  datatype Brief = Brief(term: nat, log: seq<LogEntry>, commit: nat)

  datatype Office = Vacant | Held(i: nat, nextIndex: seq<int>, matchIndex: seq<int>)

  // Term, log and commit index of every replica, what one leader knows, and
  // messages that have been sent.
  datatype Station = Station(briefs: seq<Brief>, office: Office, msgs: set<Msg>)

  ghost predicate ShowsNode(x: NodeState, j: nat, b: Brief) {
    && x.term == b.term && x.log == b.log && x.commitIndex == b.commit && x.leaderTasks == 0
    && j < |x.nextIndex| && j < |x.matchIndex| && x.nextIndex[j] == 0 && x.matchIndex[j] == 0
  }

  ghost predicate Shows(s: State, t: Station) {
    && |s.nodes| == |t.briefs| && t.msgs <= s.net
    && (forall j {:trigger s.nodes[j]} :: 0 <= j < |s.nodes| ==> ShowsNode(s.nodes[j], j, t.briefs[j]))
    && (t.office.Held? ==>
          && t.office.i < |s.nodes| && s.nodes[t.office.i].role.Leader?
          && s.nodes[t.office.i].nextIndex == t.office.nextIndex
          && s.nodes[t.office.i].matchIndex == t.office.matchIndex)
  }

  ghost predicate Passes(cfg: Config, w: Waived, t: Station) {
    exists s :: Reaches(cfg, w, s) && Shows(s, t)
  }

  // ---- elections ----

  // Replica i stands and gets its own vote and v's: enough when the quorum is 2.
  ghost predicate CanWin(cfg: Config, s: State, i: nat, v: nat) {
    && Shape(cfg, s) && i < cfg.n && v < cfg.n && i != v
    && MayStand(cfg, i, s.nodes[i]) && s.nodes[i].leaderTasks == 0
    && s.nodes[v].term <= s.nodes[i].term
    && UpToDate(LastTerm(s.nodes[i].log), |s.nodes[i].log|, s.nodes[v].log)
  }

  // The candidate with this many votes, before become_leader runs, and a voter.
  function Chosen(cfg: Config, i: nat, x: NodeState, votes: nat): NodeState {
    x.(term := x.term + 1, role := Candidate, leader := None, votedFor := Some(i), votesReceived := votes,
       petitions := map[], petitionCount := 0, leaderTasks := if votes >= ElectionQuorum(cfg.n) then 1 else 0)
  }

  function Voter(i: nat, x: NodeState, y: NodeState): NodeState {
    AdoptTerm(y, x.term + 1).(leader := None, votedFor := Some(i))
  }

  lemma Campaign(cfg: Config, w: Waived, s: State, i: nat, v: nat) returns (s': State)
    requires Reaches(cfg, w, s) && CanWin(cfg, s, i, v) && ElectionQuorum(cfg.n) >= 2
    ensures Reaches(cfg, w, s') && Balloted(cfg, s', i) && s.net <= s'.net
    ensures s'.nodes == s.nodes[i := Chosen(cfg, i, s.nodes[i], 2)][v := Voter(i, s.nodes[i], s.nodes[v])]
    ensures s'.hist.counted[i] == {i, v}
  {
    s' := Stand(cfg, w, s, i);
    s' := Poll(cfg, w, s', i, i);
    s' := Poll(cfg, w, s', i, v);
  }

  // What is left of an election: i leads with its log as it was and knows
  // nothing of its followers yet, the voters moved to the term, the rest did not move.
  ghost predicate Elected(cfg: Config, s: State, s': State, i: nat, voters: set<nat>) {
    && Shape(cfg, s) && Shape(cfg, s') && i < cfg.n && s.net <= s'.net
    && Leads(s.nodes[i], s'.nodes[i], i)
    && forall j {:trigger s'.nodes[j]} :: 0 <= j < cfg.n && j != i ==>
         s'.nodes[j] == if j in voters then Voter(i, s.nodes[i], s.nodes[j]) else s.nodes[j]
  }

  ghost predicate Leads(x: NodeState, y: NodeState, i: nat) {
    && y.role.Leader? && y.term == x.term + 1 && y.log == x.log && y.commitIndex == x.commitIndex && y.leaderTasks == 0
    && |y.nextIndex| == |x.nextIndex| && |y.matchIndex| == |x.matchIndex|
    && (forall d {:trigger y.nextIndex[d]} :: 0 <= d < |y.nextIndex| ==>
          y.nextIndex[d] == if d == i then x.nextIndex[d] else |x.log| + 1)
    && (forall d {:trigger y.matchIndex[d]} :: 0 <= d < |y.matchIndex| ==>
          y.matchIndex[d] == if d == i then x.matchIndex[d] else 0)
  }

  lemma Win(cfg: Config, w: Waived, s: State, i: nat, v: nat) returns (s': State)
    requires Reaches(cfg, w, s) && CanWin(cfg, s, i, v) && ElectionQuorum(cfg.n) == 2
    ensures Reaches(cfg, w, s') && Elected(cfg, s, s', i, {v})
  {
    s' := Campaign(cfg, w, s, i, v);
    s' := TakeOffice(cfg, w, s', i);
  }

  // Five replicas: i wins with its own vote and those of a and b.
  lemma WinOfFive(cfg: Config, w: Waived, s: State, i: nat, a: nat, b: nat) returns (s': State)
    requires Reaches(cfg, w, s) && cfg.n == 5
    requires CanWin(cfg, s, i, a) && CanWin(cfg, s, i, b) && a != b
    ensures Reaches(cfg, w, s') && Elected(cfg, s, s', i, {a, b})
  {
    s' := Campaign(cfg, w, s, i, a);
    s' := Poll(cfg, w, s', i, b);
    s' := TakeOffice(cfg, w, s', i);
  }

  // ---- replication ----

  // y became y' by a message: the log, term and commit index are these, and what
  // it knew as a leader did not change.
  ghost predicate Became(y: NodeState, y': NodeState, b: Brief) {
    && y'.term == b.term && y'.log == b.log && y'.commitIndex == b.commit && y'.leaderTasks == y.leaderTasks
    && y'.nextIndex == y.nextIndex && y'.matchIndex == y.matchIndex
  }

  // Follower d lacks everything from its next index on, or has something else there.
  ghost predicate Lacks(x: NodeState, y: NodeState, d: nat) {
    && d < |x.nextIndex| && 1 <= x.nextIndex[d] <= |x.log| && x.nextIndex[d] - 1 <= |y.log|
    && y.term <= x.term && x.commitIndex <= y.commitIndex
    && Agree(y.log, x.log, x.nextIndex[d] - 1)
    && (x.nextIndex[d] <= |y.log| ==> y.log[x.nextIndex[d] - 1].term != x.log[x.nextIndex[d] - 1].term)
  }

  lemma PendingFromStart(i: nat, x: NodeState, d: nat)
    requires d < |x.nextIndex| && x.nextIndex[d] == 1 && |x.log| > 0
    ensures PendingTo(i, x, d) == AppendEntries(i, d, x.term, 0, 0, x.log, x.commitIndex)
  {
    assert x.log[0..] == x.log;
  }

  lemma TakesPending(i: nat, x: NodeState, y: NodeState, d: nat)
    requires i != d && Lacks(x, y, d)
    ensures var out := OnAppendEntries(d, y, PendingTo(i, x, d));
            && Became(y, out.node, Brief(x.term, x.log, y.commitIndex))
            && out.sent == [AppendResponse(d, i, x.term, true, |x.log|)]
  {
    var prev, pending := x.nextIndex[d] - 1, Pending(x.log, x.nextIndex[d]);
    assert Settled(y.log, prev, pending) == 0;
    assert Splice(y.log, prev, pending) == x.log;
  }

  // What the leader sent follower d arrives.
  lemma Replicate(cfg: Config, w: Waived, s: State, i: nat, x: NodeState, d: nat) returns (s': State)
    requires Reaches(cfg, w, s) && i < cfg.n && d < cfg.n && i != d
    requires Lacks(x, s.nodes[d], d) && PendingTo(i, x, d) in s.net
    ensures Reaches(cfg, w, s') && s.net + {AppendResponse(d, i, x.term, true, |x.log|)} <= s'.net
    ensures |s'.nodes| == |s.nodes| && s'.nodes == s.nodes[d := s'.nodes[d]]
    ensures Became(s.nodes[d], s'.nodes[d], Brief(x.term, x.log, s.nodes[d].commitIndex))
  {
    TakesPending(i, x, s.nodes[d], d);
    s' := Append(cfg, w, s, PendingTo(i, x, d));
  }

  // The commit index a heartbeat leaves behind.
  function Heard(x: NodeState, y: NodeState, d: nat): nat
    requires d < |x.nextIndex|
  {
    var prev := x.nextIndex[d] - 1;
    if ContainsEntry(y.log, prev, TermAt(x.log, prev)) && x.commitIndex > y.commitIndex then Min(x.commitIndex, |y.log|)
    else y.commitIndex
  }

  lemma HearsHeartbeat(i: nat, x: NodeState, y: NodeState, d: nat)
    requires i != d && d < |x.nextIndex| && y.term <= x.term
    ensures Became(y, OnAppendEntries(d, y, HeartbeatTo(i, x, d)).node, Brief(x.term, y.log, Heard(x, y, d)))
  {
  }

  // A heartbeat is sent and arrives.
  lemma Pulse(cfg: Config, w: Waived, s: State, i: nat, d: nat) returns (s': State)
    requires Reaches(cfg, w, s) && i < cfg.n && d < cfg.n && i != d && s.nodes[i].role.Leader?
    requires s.nodes[d].term <= s.nodes[i].term && (w.A6? || s.nodes[i].commitIndex <= s.nodes[d].commitIndex
                                                    || s.nodes[i].commitIndex < s.nodes[i].nextIndex[d])
    ensures Reaches(cfg, w, s') && s.net <= s'.net && |s'.nodes| == |s.nodes| && s'.nodes == s.nodes[d := s'.nodes[d]]
    ensures Became(s.nodes[d], s'.nodes[d], Brief(s.nodes[i].term, s.nodes[d].log, Heard(s.nodes[i], s.nodes[d], d)))
  {
    HearsHeartbeat(i, s.nodes[i], s.nodes[d], d);
    s' := Beat(cfg, w, s, i, d);
    s' := Append(cfg, w, s', HeartbeatTo(i, s.nodes[i], d));
  }

  // ---- A2 ----

  // Two replicas count their own vote twice each.
  lemma ElectSelf(s: State, i: nat) returns (s': State)
    requires Reaches(Setup(2), A2, s) && i < 2 && s.nodes[i] == InitNode(2)
    ensures Reaches(Setup(2), A2, s') && s'.nodes == s.nodes[i := s'.nodes[i]]
    ensures s'.nodes[i].role.Leader? && s'.nodes[i].term == 1
  {
    s' := Stand(Setup(2), A2, s, i);
    s' := Vote(Setup(2), A2, s', i, i);
    s' := Count(Setup(2), A2, s', i, i);
    s' := Count(Setup(2), A2, s', i, i);
    s' := TakeOffice(Setup(2), A2, s', i);
  }

  lemma NeedVotesCountedOnce() returns (s: State)
    ensures Reaches(Setup(2), A2, s) && TwoLeaders(s)
  {
    Begin(Setup(2), A2);
    s := ElectSelf(Init(Setup(2)), 0);
    s := ElectSelf(s, 1);
    assert s.nodes[0].role.Leader? && s.nodes[1].role.Leader?;
  }

  // ---- A4 ----

  // Replica 0 reaches the quorum of term 1, replica 1 then wins term 2 with 0's
  // vote, and 0's queued become_leader runs in term 2.
  lemma NeedTaskIsFresh() returns (s: State)
    ensures Reaches(Setup(2), A4, s) && TwoLeaders(s)
  {
    var cfg := Setup(2);
    Begin(cfg, A4);
    s := Campaign(cfg, A4, Init(cfg), 0, 1);
    s := Win(cfg, A4, s, 1, 0);
    s := TakeOffice(cfg, A4, s, 0);
    assert s.nodes[0].role.Leader? && s.nodes[1].role.Leader?;
  }

  // ---- A3 ----

  function FirstOfThree(): Station {
    Station([Brief(1, [], 0), Brief(1, [], 0), Brief(0, [], 0)], Held(0, [0, 1, 1], [0, 0, 0]), {})
  }

  lemma PassFirstOfThree()
    ensures Passes(Setup(3), A3, FirstOfThree())
  {
    Begin(Setup(3), A3);
    var s := Win(Setup(3), A3, Init(Setup(3)), 0, 1);
    assert Shows(s, FirstOfThree());
  }

  // After replica 0 won term 1 with 1's vote, its heartbeat makes 1 forget that
  // vote ...
  lemma VoteForgotten() returns (s: State)
    ensures Reaches(Setup(3), A3, s) && s.nodes[1].votedFor.None? && s.nodes[0].role.Leader?
    ensures Shows(s, FirstOfThree().(office := Vacant))
  {
    PassFirstOfThree();
    s :| Reaches(Setup(3), A3, s) && Shows(s, FirstOfThree());
    var x := s.nodes[0];
    HearsHeartbeat(0, x, s.nodes[1], 1);
    s := Beat(Setup(3), A3, s, 0, 1);
    s := Append(Setup(3), A3, s, HeartbeatTo(0, x, 1));
  }

  // ... and 2 wins term 1 with it.
  lemma NeedNoVoteAfterLeader() returns (s: State)
    ensures Reaches(Setup(3), A3, s) && TwoLeaders(s)
  {
    var cfg := Setup(3);
    s := VoteForgotten();
    s := Stand(cfg, A3, s, 2);
    s := Poll(cfg, A3, s, 2, 2);
    s := Poll(cfg, A3, s, 2, 1);
    s := TakeOffice(cfg, A3, s, 2);
    assert s.nodes[0].role.Leader? && s.nodes[2].role.Leader?;
  }

  // ---- A6 ----

  // Replica 2 holds an entry of term 1 that nobody else has ...
  lemma StaleSuffix()
    ensures Passes(Setup(3), A6, Station([Brief(0, [], 0), Brief(1, [], 0), Brief(1, [Entry(1, "x")], 0)], Vacant, {}))
  {
    var cfg := Setup(3);
    Begin(cfg, A6);
    var s := Win(cfg, A6, Init(cfg), 2, 1);
    s := Submit(cfg, A6, s, 2, "x");
    assert Shows(s, Station([Brief(0, [], 0), Brief(1, [], 0), Brief(1, [Entry(1, "x")], 0)], Vacant, {}));
  }

  function SecondReign(): Station {
    Station([Brief(2, [], 0), Brief(2, [], 0), Brief(1, [Entry(1, "x")], 0)], Held(0, [0, 1, 1], [0, 0, 0]), {})
  }

  // ... replica 0 wins term 2 ...
  lemma PassSecondReign()
    ensures Passes(Setup(3), A6, SecondReign())
  {
    var cfg := Setup(3);
    StaleSuffix();
    var s :| Reaches(cfg, A6, s)
             && Shows(s, Station([Brief(0, [], 0), Brief(1, [], 0), Brief(1, [Entry(1, "x")], 0)], Vacant, {}));
    s := Stand(cfg, A6, s, 0);
    s := Win(cfg, A6, s, 0, 1);
    assert Shows(s, SecondReign());
  }

  function SecondAcked(): Station {
    Station([Brief(2, [Entry(2, "b")], 0), Brief(2, [Entry(2, "b")], 0), Brief(1, [Entry(1, "x")], 0)],
            Held(0, [0, 1, 1], [0, 0, 0]), {AppendResponse(1, 0, 2, true, 1)})
  }

  // ... and has its entry of term 2 at the same index acknowledged by 1 ...
  lemma PassSecondAcked()
    ensures Passes(Setup(3), A6, SecondAcked())
  {
    var cfg := Setup(3);
    PassSecondReign();
    var s :| Reaches(cfg, A6, s) && Shows(s, SecondReign());
    s := Submit(cfg, A6, s, 0, "b");
    s := Replicate(cfg, A6, s, 0, s.nodes[0], 1);
    assert Shows(s, SecondAcked());
  }

  lemma CommitsAt(cfg: Config, x: NodeState, others: set<nat>)
    requires |x.log| > 0 && x.log[|x.log| - 1].term == x.term && x.commitIndex <= |x.log|
    requires Replicas(x.matchIndex, |x.log|) == others && 1 + |others| >= CommitQuorum(cfg.n)
    ensures NewCommit(cfg, x) == |x.log|
  {
    assert Committable(cfg, x, |x.log|);
  }

  // ... so that 0 commits it; its heartbeat, which vouches for no entry, makes 2
  // commit the stale one.
  lemma NeedCommitIsVouched() returns (s: State)
    ensures Reaches(Setup(3), A6, s) && Diverged(s)
  {
    var cfg := Setup(3);
    PassSecondAcked();
    s :| Reaches(cfg, A6, s) && Shows(s, SecondAcked());
    CommitsAt(cfg, Matched(s.nodes[0], 1, 1), {1});
    s := Respond(cfg, A6, s, AppendResponse(1, 0, 2, true, 1));
    s := Pulse(cfg, A6, s, 0, 2);
    assert s.nodes[0].log[0] != s.nodes[2].log[0];
    assert !Agree(s.nodes[0].log, s.nodes[2].log, Min(s.nodes[0].commitIndex, s.nodes[2].commitIndex));
  }

  // ---- A5 ----

  function TwoOfOne(): seq<LogEntry> { [Entry(1, "a"), Entry(1, "a")] }

  function OneOfTwo(): seq<LogEntry> { [Entry(2, "b")] }

  function Regrown(): seq<LogEntry> { [Entry(2, "b"), Entry(3, "c")] }

  function Delayed(): Msg { AppendResponse(1, 0, 1, true, 2) }

  // Replica 0 leads term 1 ...
  function FirstReign(): Station {
    Station([Brief(1, [], 0), Brief(1, [], 0), Brief(1, [], 0), Brief(0, [], 0), Brief(0, [], 0)],
            Held(0, [0, 1, 1, 1, 1], [0, 0, 0, 0, 0]), {})
  }

  lemma PassFirstReign()
    ensures Passes(Setup(5), A5, FirstReign())
  {
    Begin(Setup(5), A5);
    var s := WinOfFive(Setup(5), A5, Init(Setup(5)), 0, 1, 2);
    assert Shows(s, FirstReign());
  }

  // ... and appends two entries ...
  function TwoAppended(): Station {
    Station([Brief(1, TwoOfOne(), 0), Brief(1, [], 0), Brief(1, [], 0), Brief(0, [], 0), Brief(0, [], 0)],
            Held(0, [0, 1, 1, 1, 1], [0, 0, 0, 0, 0]), {AppendEntries(0, 1, 1, 0, 0, TwoOfOne(), 0)})
  }

  lemma PassTwoAppended()
    ensures Passes(Setup(5), A5, TwoAppended())
  {
    PassFirstReign();
    var s :| Reaches(Setup(5), A5, s) && Shows(s, FirstReign());
    s := Submit(Setup(5), A5, s, 0, "a");
    s := Submit(Setup(5), A5, s, 0, "a");
    assert s.nodes[0].log == TwoOfOne();
    PendingFromStart(0, s.nodes[0], 1);
    assert Shows(s, TwoAppended());
  }

  // ... which 1 takes; its answer is delayed, and it plays no part until term 4.
  function AckDelayed(): Station {
    Station([Brief(1, TwoOfOne(), 0), Brief(1, TwoOfOne(), 0), Brief(1, [], 0), Brief(0, [], 0), Brief(0, [], 0)],
            Vacant, {Delayed()})
  }

  lemma PassAckDelayed()
    ensures Passes(Setup(5), A5, AckDelayed())
  {
    PassTwoAppended();
    var s :| Reaches(Setup(5), A5, s) && Shows(s, TwoAppended());
    PendingFromStart(0, s.nodes[0], 1);
    s := Replicate(Setup(5), A5, s, 0, s.nodes[0], 1);
    assert Shows(s, AckDelayed());
  }

  // Replica 4 wins term 2 ...
  function FourReigns(): Station {
    Station([Brief(1, TwoOfOne(), 0), Brief(1, TwoOfOne(), 0), Brief(2, [], 0), Brief(2, [], 0), Brief(2, [], 0)],
            Held(4, [1, 1, 1, 1, 0], [0, 0, 0, 0, 0]), {Delayed()})
  }

  lemma PassFourReigns()
    ensures Passes(Setup(5), A5, FourReigns())
  {
    PassAckDelayed();
    var s :| Reaches(Setup(5), A5, s) && Shows(s, AckDelayed());
    s := Stand(Setup(5), A5, s, 4);
    s := WinOfFive(Setup(5), A5, s, 4, 2, 3);
    assert Shows(s, FourReigns());
  }

  // ... and appends an entry ...
  function FourAppended(): Station {
    Station([Brief(1, TwoOfOne(), 0), Brief(1, TwoOfOne(), 0), Brief(2, [], 0), Brief(2, [], 0),
             Brief(2, OneOfTwo(), 0)],
            Held(4, [1, 1, 1, 1, 0], [0, 0, 0, 0, 0]),
            {Delayed(), AppendEntries(4, 0, 2, 0, 0, OneOfTwo(), 0), AppendEntries(4, 3, 2, 0, 0, OneOfTwo(), 0)})
  }

  lemma PassFourAppended()
    ensures Passes(Setup(5), A5, FourAppended())
  {
    PassFourReigns();
    var s :| Reaches(Setup(5), A5, s) && Shows(s, FourReigns());
    s := Submit(Setup(5), A5, s, 4, "b");
    assert s.nodes[4].log == OneOfTwo();
    PendingFromStart(4, s.nodes[4], 0);
    PendingFromStart(4, s.nodes[4], 3);
    assert Shows(s, FourAppended());
  }

  // ... that cuts the log of 0 ...
  function Overwritten(): Station {
    Station([Brief(2, OneOfTwo(), 0), Brief(1, TwoOfOne(), 0), Brief(2, [], 0), Brief(2, [], 0),
             Brief(2, OneOfTwo(), 0)],
            Held(4, [1, 1, 1, 1, 0], [0, 0, 0, 0, 0]), {Delayed(), AppendEntries(4, 3, 2, 0, 0, OneOfTwo(), 0)})
  }

  lemma PassOverwritten()
    ensures Passes(Setup(5), A5, Overwritten())
  {
    PassFourAppended();
    var s :| Reaches(Setup(5), A5, s) && Shows(s, FourAppended());
    PendingFromStart(4, s.nodes[4], 0);
    s := Replicate(Setup(5), A5, s, 4, s.nodes[4], 0);
    assert Shows(s, Overwritten());
  }

  // ... and reaches 3.
  function SpreadToThree(): Station {
    Station([Brief(2, OneOfTwo(), 0), Brief(1, TwoOfOne(), 0), Brief(2, [], 0), Brief(2, OneOfTwo(), 0),
             Brief(2, OneOfTwo(), 0)], Vacant, {Delayed()})
  }

  lemma PassSpreadToThree()
    ensures Passes(Setup(5), A5, SpreadToThree())
  {
    PassOverwritten();
    var s :| Reaches(Setup(5), A5, s) && Shows(s, Overwritten());
    PendingFromStart(4, s.nodes[4], 3);
    s := Replicate(Setup(5), A5, s, 4, s.nodes[4], 3);
    assert Shows(s, SpreadToThree());
  }

  // Replica 0 wins term 3 ...
  function ZeroReigns(): Station {
    Station([Brief(3, OneOfTwo(), 0), Brief(1, TwoOfOne(), 0), Brief(3, [], 0), Brief(3, OneOfTwo(), 0),
             Brief(2, OneOfTwo(), 0)], Held(0, [0, 2, 2, 2, 2], [0, 0, 0, 0, 0]), {Delayed()})
  }

  lemma PassZeroReigns()
    ensures Passes(Setup(5), A5, ZeroReigns())
  {
    PassSpreadToThree();
    var s :| Reaches(Setup(5), A5, s) && Shows(s, SpreadToThree());
    s := WinOfFive(Setup(5), A5, s, 0, 2, 3);
    assert Shows(s, ZeroReigns());
  }

  // ... its heartbeat demotes 4, and the answer of term 1 arrives.
  function StaleCounted(): Station {
    Station([Brief(3, OneOfTwo(), 0), Brief(1, TwoOfOne(), 0), Brief(3, [], 0), Brief(3, OneOfTwo(), 0),
             Brief(3, OneOfTwo(), 0)], Held(0, [0, 3, 2, 2, 2], [0, 2, 0, 0, 0]), {})
  }

  lemma PassStaleCounted()
    ensures Passes(Setup(5), A5, StaleCounted())
  {
    PassZeroReigns();
    var s :| Reaches(Setup(5), A5, s) && Shows(s, ZeroReigns());
    s := Pulse(Setup(5), A5, s, 0, 4);
    s := Respond(Setup(5), A5, s, Delayed());
    assert Shows(s, StaleCounted());
  }

  // It appends at index 2, where 1 holds an entry of term 1, and 3 takes that.
  function ThreeTakes(): Station {
    Station([Brief(3, Regrown(), 0), Brief(1, TwoOfOne(), 0), Brief(3, [], 0), Brief(3, Regrown(), 0),
             Brief(3, OneOfTwo(), 0)], Held(0, [0, 3, 2, 2, 2], [0, 2, 0, 0, 0]), {AppendResponse(3, 0, 3, true, 2)})
  }

  lemma PassThreeTakes()
    ensures Passes(Setup(5), A5, ThreeTakes())
  {
    PassStaleCounted();
    var s :| Reaches(Setup(5), A5, s) && Shows(s, StaleCounted());
    s := Submit(Setup(5), A5, s, 0, "c");
    s := Replicate(Setup(5), A5, s, 0, s.nodes[0], 3);
    assert Shows(s, ThreeTakes());
  }

  // Counting 1, it commits that entry ...
  function FalselyCommitted(): Station {
    Station([Brief(3, Regrown(), 2), Brief(1, TwoOfOne(), 0), Brief(3, [], 0), Brief(3, Regrown(), 0),
             Brief(3, OneOfTwo(), 0)], Held(0, [0, 3, 2, 3, 2], [0, 2, 0, 2, 0]), {})
  }

  lemma PassFalselyCommitted()
    ensures Passes(Setup(5), A5, FalselyCommitted())
  {
    PassThreeTakes();
    var s :| Reaches(Setup(5), A5, s) && Shows(s, ThreeTakes());
    CommitsAt(Setup(5), Matched(s.nodes[0], 3, 2), {1, 3});
    s := Respond(Setup(5), A5, s, AppendResponse(3, 0, 3, true, 2));
    assert Shows(s, FalselyCommitted());
  }

  // ... and 3 learns it.
  function ThreeLearns(): Station {
    Station([Brief(3, Regrown(), 2), Brief(1, TwoOfOne(), 0), Brief(3, [], 0), Brief(3, Regrown(), 2),
             Brief(3, OneOfTwo(), 0)], Vacant, {})
  }

  lemma PassThreeLearns()
    ensures Passes(Setup(5), A5, ThreeLearns())
  {
    PassFalselyCommitted();
    var s :| Reaches(Setup(5), A5, s) && Shows(s, FalselyCommitted());
    s := Pulse(Setup(5), A5, s, 0, 3);
    assert Shows(s, ThreeLearns());
  }

  // Replica 4 wins term 4 without it.
  function FourAgain(): Station {
    Station([Brief(3, Regrown(), 2), Brief(4, TwoOfOne(), 0), Brief(4, [], 0), Brief(3, Regrown(), 2),
             Brief(4, OneOfTwo(), 0)], Held(4, [2, 2, 2, 2, 0], [0, 0, 0, 0, 0]), {})
  }

  lemma PassFourAgain()
    ensures Passes(Setup(5), A5, FourAgain())
  {
    PassThreeLearns();
    var s :| Reaches(Setup(5), A5, s) && Shows(s, ThreeLearns());
    s := WinOfFive(Setup(5), A5, s, 4, 1, 2);
    assert Shows(s, FourAgain());
  }

  // An entry of term 4 replaces the committed one in the log of 0.
  lemma NeedNoStaleSuccess() returns (s: State)
    ensures Reaches(Setup(5), A5, s) && Diverged(s)
  {
    PassFourAgain();
    s :| Reaches(Setup(5), A5, s) && Shows(s, FourAgain());
    s := Submit(Setup(5), A5, s, 4, "d");
    s := Append(Setup(5), A5, s, PendingTo(4, s.nodes[4], 0));
    assert s.nodes[0].log[1] != s.nodes[3].log[1];
    assert !Agree(s.nodes[0].log, s.nodes[3].log, Min(s.nodes[0].commitIndex, s.nodes[3].commitIndex));
  }

  // ---- the offline check with an even number of nodes ----

  function HeartbeatAnswered(): Station {
    Station([Brief(1, [Entry(1, "a")], 0), Brief(1, [], 0)], Held(0, [0, 1], [0, 0]),
            {AppendResponse(1, 0, 1, true, 0)})
  }

  // Two replicas: 1 answers a heartbeat sent before it got the new entry ...
  lemma PassHeartbeatAnswered()
    ensures Passes(Setup(2), NoneWaived, HeartbeatAnswered())
  {
    var cfg := Setup(2);
    Begin(cfg, NoneWaived);
    var s := Win(cfg, NoneWaived, Init(cfg), 0, 1);
    s := Submit(cfg, NoneWaived, s, 0, "a");
    var x := s.nodes[0];
    s := Beat(cfg, NoneWaived, s, 0, 1);
    s := Append(cfg, NoneWaived, s, HeartbeatTo(0, x, 1));
    assert Shows(s, HeartbeatAnswered());
  }

  // ... 0 commits the entry that it alone holds ...
  function CommittedAlone(): Station {
    Station([Brief(1, [Entry(1, "a")], 1), Brief(1, [], 0)], Vacant, {})
  }

  lemma PassCommittedAlone()
    ensures Passes(Setup(2), NoneWaived, CommittedAlone())
  {
    var cfg := Setup(2);
    PassHeartbeatAnswered();
    var s :| Reaches(cfg, NoneWaived, s) && Shows(s, HeartbeatAnswered());
    CommitsAt(cfg, Matched(s.nodes[0], 1, 0), {});
    s := Respond(cfg, NoneWaived, s, AppendResponse(1, 0, 1, true, 0));
    assert Shows(s, CommittedAlone());
  }

  // ... and the script finds no opinion with a majority at that index, although
  // every assumption held.
  lemma EvenClusterMisreported() returns (s: State)
    ensures Reaches(Setup(2), NoneWaived, s) && s.nodes[0].commitIndex == 1
    ensures Mentioned(DumpsOf(s), 1) && forall v :: !HasQuorum(DumpsOf(s), 1, v)
  {
    PassCommittedAlone();
    s :| Reaches(Setup(2), NoneWaived, s) && Shows(s, CommittedAlone());
    var dumps := DumpsOf(s);
    assert 1 in dumps[0] && 1 !in dumps[1];
    forall v ensures !HasQuorum(dumps, 1, v) {
      var j := if v == None then 1 else 0;
      assert Agreeing(dumps, 1, v) <= {j};
      SubsetSize(Agreeing(dumps, 1, v), {j});
    }
  }
}
