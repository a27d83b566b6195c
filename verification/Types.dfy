// The replica's data: src/raftLog.h, src/node.h and the messages of
// proto/raft_leader_election.proto.  Peers are named by their position in
// `peerIPs`, so distinct peers have distinct names.
module Types {
  datatype Option<+T> = None | Some(value: T)

  datatype LogEntry = LogEntry(term: nat, command: string, clientId: int, requestId: int)

  datatype Role = Follower | Candidate | Leader

  datatype Msg =
    | RequestVote(src: nat, dst: nat, term: nat, lastLogIndex: nat, lastLogTerm: nat, isPetition: bool)
    | VoteResponse(src: nat, dst: nat, term: nat, granted: bool)
    | AppendEntries(src: nat, dst: nat, term: nat, prevLogIndex: int, prevLogTerm: nat,
                    entries: seq<LogEntry>, leaderCommit: nat)
    | AppendResponse(src: nat, dst: nat, term: nat, success: bool, matchIndex: nat)
    | Petition(src: nat, dst: nat, term: nat, currentLeader: Option<nat>, proposed: nat, latency: real)

  // What a replica reads from its configuration.  `entrySize` is the length of
  // the protobuf encoding that makeLogEntry caches in `encoded`.
  datatype Config = Config(n: nat,
                           initialEligible: set<nat>,
                           eligible: set<nat>,
                           latencyThreshold: real,
                           entrySize: LogEntry -> nat)

  // peer_addresses.size() / 2 + 1
  function ElectionQuorum(n: nat): nat { n / 2 + 1 }

  // majority_count: (peerIPs.size() + 1) / 2, one less than a majority when n is even
  function CommitQuorum(n: nat): nat { (n + 1) / 2 }

  datatype NodeState = NodeState(
    term: nat,
    role: Role,
    votedFor: Option<nat>,
    votesReceived: nat,
    leader: Option<nat>,
    log: seq<LogEntry>,
    commitIndex: nat,
    nextIndex: seq<int>,
    matchIndex: seq<int>,
    petitions: map<nat, real>,
    petitionCount: nat,
    clients: set<int>,
    leaderTasks: nat)   // become_leader closures waiting in election_async_tasks

  function InitNode(n: nat): NodeState {
    NodeState(0, Follower, None, 0, None, [], 0, seq(n, _ => 0), seq(n, _ => 0), map[], 0, {}, 0)
  }

  lemma SubsetSize<T>(a: set<T>, b: set<T>)
    requires a <= b
    ensures |a| <= |b|
  {
    assert b == a + (b - a);
  }
}
