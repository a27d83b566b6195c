# A verified model of the frugal-leader-election replica

The repository is a Raft replica with three additions of its own: followers
that see a slow leader petition for another one, election timeouts are ranked
by network penalty, and log entries are streamed in messages that respect the
MTU. This project models the replica, a cluster of any number n of replicas,
and the smaller algorithms around it, and proves what they keep.

## How it is built

- `Types`, `LogOps`, `Batcher`, `Handlers`: the data and, for every handler
  and timer callback, a function from the replica's state to its new state and
  the messages it sends. Branches, edge cases and constants are the code's.
- `Replica`: the same replica as an object with fields, loops and in-place
  updates. Each method is proved to compute the function of `Handlers`.
- `Cluster`: n replicas as a transition system with one event per handler or
  timer, over a network that may lose, delay, reorder and duplicate messages.
  A history records who won which term, who voted for whom, and who holds
  what; no handler reads it.
- `Invariant`, `Stability`, `Completeness`, `Preservation`: the inductive
  invariant, and the proof that every event keeps it. `Safety` draws the
  theorems of sections 5.2 to 5.4 of the Raft paper from it, over whole runs.
- `Voting`, `Petitions`, `Duties`: when a replica votes, petitions, stands,
  follows, refuses and steps down, mostly over every run of the code.
- `Leadership`, `Answers`: what a leader learns of its followers, commits, and
  tells its clients.
- `Replication`, `CatchUp`: one leader and one follower.
- `Scripts`, `Necessity`: concrete runs in which safety fails when one of the
  assumptions below is dropped.
- `Checker`, `RoundRobin`, `ClientWindow` and `ClientObject`, `Timeouts`,
  `Pooled`: the offline log check, the dequeuing loops, the client's window,
  the ranked timeouts, and the pooled statistics.

An election needs n/2 + 1 votes and a commit only (n+1)/2 replicas. For even n
the second is not a majority, but the two always sum to n + 1, so every
election quorum meets every commit quorum, and all theorems hold for every n.

## Assumptions

The Raft theorems are false of the code as it stands. They are proved for runs
in which every event meets the following conditions, which are predicates on
the state and the event in `Cluster`. Each theorem asks only for those its
subject needs, its `Scope`: `Logs` (elections and logs) for A2 to A4, `Matches`
(what a leader knows of its followers) for A2 to A5, `Commits` for A2 to A6. For
each of A2 to A6, `Necessity` gives a run in which the other four hold throughout
and a theorem fails.

- A1: handlers are atomic. This is part of the model; several handlers do not
  take the state mutex.
- A2 (`VotesCountedOnce`): a vote is counted in the term it was given in, once
  per voter. The code counts messages and looks only for larger terms.
- A3 (`NoVoteAfterLeader`): no vote request of its term that a replica would
  grant reaches it after it processed an AppendEntries of that term, which clears
  `voted_for`. `Voting.SecondVoteIff` says exactly when a replica votes twice.
- A4 (`TaskIsFresh`): a queued `become_leader` runs only on a leader, or on a
  candidate whose votes reach the quorum. `become_leader` could test this when
  it runs, and tests nothing.
- A5 (`NoStaleSuccess`): a success response of an older term that reaches a
  leader claims no more than the leader's match index.
- A6 (`CommitIsVouched`): when an accepted AppendEntries advances the commit
  index, the message vouches for the follower's entry at the new commit index, or
  that entry is of the sender's term, both of which the follower can test, or it
  is of the same term as the sender's entry there. This bars a delivery exactly
  when it would commit entries the sender does not have: `Preservation.TakenOverIff`.
- A7: peers are distinct and do not lose their state. This is part of the model.

## Where code and comments disagree

The model follows the code.

- `check_false_positive` is described as suppressing elections, but the
  callback goes on to start one (src/node.cpp:512-518).
- The follower's commit rule: comment at src/node.cpp:1366, code at 1369.
- `quorum[2]` in the log statement at src/node.cpp:1964 is read even when fewer
  replicas agree; the statement is not part of this model.
- Doubling the election timeout changes nothing in Jacobson mode
  (src/node.cpp:471-476), and the Jacobson estimate is capped at 800 ms from
  above, not bounded from below as its comment says.
- A proposer without a leader whose petitions succeed would look up peer -1;
  the model sends nothing then.

## Model

| member | source | states |
|---|---|---|
| Safety.ElectionSafety | src/node.cpp:1053-1132 | Under A2 to A4, at most one replica is ever leader in a term: two replicas that lead in the same term, at whatever times, are the same. |
| Safety.StepDownLasts | src/node.cpp:942-966 | Under A2 to A4, a replica that is follower in a term, after a petition, a failure or a lost vote, stays follower as long as it is in that term. |
| Safety.LogMatching | src/node.cpp:1312-1359 | Under A2 to A4, if two logs, at any two moments, have the same term at an index, they are identical through that index, commands, client ids and request ids included. |
| Safety.StateMachineSafety | src/node.cpp:1366-1373 | No two replicas, at any two moments, hold different entries at an index both consider committed. |
| Safety.LeaderHasCommitted | src/node.cpp:983-1006 | What a replica considers committed is in the log of every leader of every later term, and of its own term from then on. |
| Safety.LeaderAppendOnly | src/node.cpp:1591-1591 | Under A2 to A4, within one reign a leader's earlier log is a prefix of its later log. |
| Safety.CommitIsForever | src/raftLog.h:45-47 | A replica's commit index never decreases although it is stored unconditionally, and the entries below it never change. |
| Safety.MatchIndexTruth | src/node.cpp:1905-1912 | Under A2 to A5, a follower in the leader's term agrees with the leader's log through match_index; the leader's own entry stays 0, so it counts once. |
| Safety.CommittedOnQuorum | src/node.cpp:1936-1951 | At every moment every index some replica considers committed is held, with all before it, by (n+1)/2 replicas. |
| Safety.AcksTile | src/node.cpp:1974-1993 | Over a reign, in any run, the acknowledgement loops visit exactly the indices the commit index passed, each once, in increasing order. |
| Safety.AcknowledgedIsDurable | src/node.cpp:1974-1993 | A request acknowledged to its client is in the log of every leader of every later term. |
| Answers.RepliesAnswer | src/node.cpp:1974-1993 | The replies are, in order and once each, those for exactly the visited entries whose client is known, with that entry's client id and request id. |
| Answers.ReplyIsDurable | src/node.cpp:1974-1993 | The entry a reply names by client id and request id is at the same index in the log of every leader of every later term. |
| Answers.OwnEntryAnswered | src/node.cpp:1577-1577 | Under A2 to A4, every entry of its own term that a leader commits is answered to its client. |
| Safety.RunInv | src/node.cpp:834-918 | For each scope, the invariant holds in every state of every run that meets the scope's assumptions. |
| Leadership.QueuedIffElected | src/node.cpp:1084-1100 | Under A2 to A4, counting a vote queues become_leader if and only if the replicas that voted for the candidate in its term are more than half. |
| Leadership.OfficeStarts | src/node.cpp:1104-1126 | A new leader names itself, forgets match indices and petitions, and its first heartbeat probes every follower at the end of its own log. |
| Leadership.MatchIsLargestClaim | src/node.cpp:1909-1910 | In any run, from one become_leader to the next, a follower's match index is the largest of 0 and the match indices of the successes received from it, in whatever order. |
| Leadership.MatchFallsIff | src/node.cpp:1119-1126 | In any run, within a reign a match index falls if and only if a second become_leader of the same election resets it; right after a success the next index is one past the match index. |
| Leadership.AnswerIsHeard | src/node.cpp:1376-1377 | The answer to an accepted message, processed by its sender, raises match and next index past everything the message carried. |
| Leadership.CommitIsLargest | src/node.cpp:1936-1967 | After a success the commit index is the old one or an index of the leader's term held, with the leader, by at least half of the replicas, and no larger index is. |
| Preservation.StepKeeps | src/node.cpp:834-918 | For each scope, every event that meets its assumptions keeps its invariant and changes only its own replica and that replica's part of the history. |
| Preservation.ProposalsAreAppends | src/node.cpp:1625-1758 | Every message the proposal loop sends is a slice of the leader's log with the matching previous index and term. |
| Preservation.TakenOverIff | src/node.cpp:1366-1373 | The commit index an accepted message gives a follower is right, the follower's log being the sender's through it, if and only if both logs have the same term there; what the follower can test suffices, and A6 holds exactly then. |
| Preservation.CommittableIsCommitted | src/node.cpp:1936-1951 | An index the leader's counting loop accepts is acknowledged by a commit quorum. |
| Completeness.QuorumsMeet | src/node.cpp:1084-1084 | Two sets of replicas whose sizes sum to more than n share a replica. |
| Completeness.GrantCovers | src/node.cpp:983-1006 | A log that wins a vote by the up-to-date check holds everything the voter had acknowledged of an earlier term, unless a term in between was won without it. |
| Completeness.LeaderCompleteness | src/node.cpp:983-1006 | A log entry acknowledged by a commit quorum in its own term is in the log with which every later term is won. |
| Completeness.OneWinner | src/node.cpp:1084-1084 | Two candidates for each of whom an election quorum voted in one term are the same. |
| Voting.SecondVoteIff | src/node.cpp:1004-1010 | In any run, a replica that voted in a term grants another candidate of that term if and only if an AppendEntries of the term cleared its vote, it has not voted again, and the candidate is up to date, which is what A3 bars. |
| Voting.OneVotePerTerm | src/node.cpp:1004-1010 | In any run, under A3, a replica never votes for two candidates in a term. |
| Duties.StandsIff | src/node.cpp:521-559 | A timeout makes a candidate if and only if the replica is eligible and, while nobody ever led, initially eligible; it then asks all n replicas for a vote in the next term with its own log's end. |
| Duties.OnlyEligibleLead | src/node.cpp:530-538 | Under A2 to A4, only eligible replicas are ever candidate or leader. |
| Duties.TermMovesIff | src/node.cpp:1062-1071 | A message changes the term if and only if it carries a larger one to a handler that looks: the term becomes the message's, the replica a follower without petitions whose vote is free unless it goes to the sender. |
| Duties.GrantIff | src/node.cpp:932-1012 | A vote is granted if and only if the term is not old, the vote is free in it and the candidate's log does not end before the voter's; the answer carries the later term. |
| Duties.AppendAnswered | src/node.cpp:1233-1383 | An old AppendEntries is refused with the newer term and changes nothing; any other makes its sender the known leader, and is accepted, with the index of its last entry as answer, if and only if the log contains the entry it continues from. |
| Duties.KnownLeadersAgree | src/node.cpp:1286-1294 | Under A2 to A4, replicas of one term that know a leader other than themselves know the same one, and nobody else leads in that term. |
| Petitions.PetitionsChange | src/node.cpp:966-973 | No event lowers a term; a larger term empties the petition map, and within a term only a petition to this replica adds to it. |
| Petitions.PetitionEpoch | src/node.cpp:1802-1823 | In every reachable state of any run, whoever is in a replica's petition map petitioned it in its current term with the latency recorded. |
| Petitions.StepDownNeedsQuorum | src/node.cpp:1826-1857 | When a step-down request is sent, petitioners and proposer are at least majority_count distinct replicas, all of the proposer's term, none reporting a latency below the proposer's latency to it; it goes to the proposer's leader. |
| Petitions.PetitionsIff | src/node.cpp:1469-1494 | The penalty timer petitions if and only if the replica is not the leader, its latency to the leader exceeds the threshold, and the one proposed is neither; the petition names the leader and carries that latency. |
| Petitions.StepDownAskedIff | src/node.cpp:1802-1857 | In any run, a petition from a new sender sends the step-down request if and only if a leader is known, the senders with the receiver are at least half of the replicas, and no recorded latency is below the receiver's own to its sender. |
| Petitions.OtherPetitions | src/node.cpp:1783-1816 | A repeated sender only has its latency replaced; a petition of another term, about another leader or for another replica changes nothing; neither sends anything. |
| Petitions.StepDownObeyed | src/node.cpp:932-963 | A leader asked to step down in its term or a later one becomes a follower that knows no leader, with term, log, vote and commit index kept; an earlier request is refused with the leader's term; nobody else is moved. |
| Petitions.DeposedForTerm | src/node.cpp:942-963 | Under A2 to A4, a leader asked to step down, or a replica whose failure timer fired, does not lead again in that term; only its role and leader change. |
| Replication.SpliceMeans | src/node.cpp:1334-1359 | The reconcile loop keeps the log if every entry is there, else keeps what precedes the first conflict and continues with the message. |
| Replication.SpliceIdempotent | src/node.cpp:1334-1359 | A message processed twice changes nothing the second time. |
| Replication.SpliceConcat | src/node.cpp:1334-1359 | Processing two consecutive slices is processing their concatenation. |
| LogOps.SpliceOutcome | src/node.cpp:1334-1359 | A slice of a matching log either is there already or leaves exactly that log through its end; no agreeing entry is removed. |
| Replication.ChunkingInvisible | src/node.cpp:1693-1757 | A follower that accepts the first batch and processes all in order ends with the log one unbounded message would give. |
| Replication.GapRefused | src/node.cpp:1312-1322 | A batch whose previous index lies beyond the log is refused and changes no entry. |
| Replication.RejectedIffBeyond | src/raftLog.cpp:38-49 | A probe is refused if and only if it points beyond the common prefix. |
| Replication.BacktrackRefusals | src/node.cpp:1914-1923 | Each of the first nextIndex - 1 - prefix exchanges is refused, moves the next index one back, never below 1, and changes no log. |
| Replication.BacktrackConverges | src/node.cpp:1155-1166 | The exchange after those is accepted with match index equal to the length of the longest common prefix. |
| Replication.CommitRulesAgreeIff | src/node.cpp:1366-1369 | The code's follower commit rule gives the commented rule's result if and only if the leader's commit index or the follower's new log does not reach past the message's last entry. |
| CatchUp.FollowerCatchesUp | src/node.cpp:1591-1757 | In every reachable state of a run that meets A2 to A5, after a known number of refusals a heartbeat is accepted, and the messages to the follower of the next client request that does not pass it over make its log begin with the leader's whole log, the new entry included. |
| CatchUp.RequestCompletes | src/node.cpp:1591-1757 | Once the next index lies within the common prefix, what one client request sends a follower completes its log. |
| Batcher.FillIsLongest | src/node.cpp:1720-1735 | The inner loop takes the longest prefix that fits. |
| Batcher.BatchesSplit | src/node.cpp:1693-1757 | The batches are non-empty, within 1400 bytes with 64 for headers, and their concatenation is the input. |
| Batcher.FewestMessages | src/node.cpp:1693-1757 | No order-preserving split within the limit uses fewer messages. |
| Batcher.StreamEndsIff | src/node.cpp:1695-1735 | The outer loop reaches the end if and only if every entry fits into a message of its own. |
| Batcher.StartsLocate | src/node.cpp:1705-1715 | The p-th entry of each message is the entry of the stream p places after the recorded start. |
| Batcher.FillMessage | src/node.cpp:1720-1735 | One message is filled from the cursor to where the next entry would overflow. |
| Batcher.Stream | src/node.cpp:1693-1757 | The loops produce the greedy batches and their starts. |
| Replica.RaftLog.AppendEntry | src/raftLog.cpp:7-16 | The log grows by the entry at its end. |
| LogOps.AppendThenRead | src/raftLog.cpp:7-49 | After an append, the entry is read back at the last index with its term, and every other index reads as before. |
| LogOps.ContainsIffAgree | src/raftLog.cpp:38-49 | Where equal terms at an index mean equal prefixes, containsEntry holds of another log's entry if and only if the two logs agree through it. |
| Replica.RaftLog.DeleteEntriesStartingFrom | src/raftLog.cpp:51-58 | Cuts the log before the index, and does nothing outside the log. |
| Replica.RaftLog.AdvanceCommitIndex | src/raftLog.h:45-47 | Stores the index whatever it was. |
| Replica.RaftLog.Reconcile | src/node.cpp:1327-1359 | The truncate-or-append loop computes `Splice`. |
| Replica.Node.ElectionTimeout | src/node.cpp:507-556 | New state and requests of an election timeout, eligibility included, as `OnTimeout`. |
| Replica.Node.HandleRequestVote | src/node.cpp:926-1025 | As `OnRequestVote`: stale, petition, newer term, grant and refusal. |
| Replica.Node.HandleVoteResponse | src/node.cpp:1053-1102 | As `OnVoteResponse`: one more vote, and a leader task for each vote from the quorum on. |
| Replica.Node.BecomeLeader | src/node.cpp:1104-1132 | As `OnLeaderTask`: the role changes whatever it was, and the index maps are reset for the peers only. |
| Replica.Node.FailureTimer | src/node.cpp:1208-1224 | The replica steps down and forgets its leader, keeping its term. |
| Replica.Node.SendHeartbeat | src/node.cpp:1134-1206 | A leader sends every peer, itself included, a message without entries just before its next index. |
| Replica.Node.CacheEntries | src/node.cpp:1674-1684 | The entries cached for a follower are the log from its next index on. |
| Replica.Node.SendBatches | src/node.cpp:1705-1757 | Each batch is sent with the previous index and term just before its first entry. |
| Replica.Node.SendProposalsTo | src/node.cpp:1649-1757 | Caching, batching and sending for one follower produce `ProposalsTo`. |
| Replica.Node.HandleClientRequest | src/node.cpp:1560-1623 | As `OnClientRequest`: the entry is appended in the leader's term and the followers not passed over are sent everything pending; a replica that is not leader changes nothing and names the leader it knows. |
| Replica.Node.HandleAppendEntries | src/node.cpp:1226-1382 | As `OnAppendEntries`: stale, own, refused and accepted messages, log, commit index and answer. |
| Replica.Node.AcceptEntries | src/node.cpp:1327-1373 | The log is spliced and the commit index moves to the smaller of the leader's and the last log index if the former is larger. |
| Replica.Node.CountReplicas | src/node.cpp:1936-1947 | The number of peers whose match index reaches an index, and one for the leader. |
| Replica.Node.FindCommit | src/node.cpp:1934-1970 | The loop finds the last index above the commit index with enough replicas and an entry of the current term. |
| Replica.Node.AckClients | src/node.cpp:1972-1993 | The loop visits old + 1 to new in order and answers the known clients of those entries. |
| Handlers.LastCommittable | src/node.cpp:1934-1970 | The result is committable unless it is the old commit index, and no larger index is committable. |
| Replica.Node.UpdateCommitIndex | src/node.cpp:1927-1993 | The new commit index, the indices acknowledged in order, and one reply for each of them whose client is known; the log is not changed. |
| Replica.Node.HandleAppendResponse | src/node.cpp:1879-1925 | As `OnAppendResponse`: larger term, success and refusal. |
| Replica.Node.PenaltyTimer | src/node.cpp:1469-1527 | A petition goes to a node of lowest penalty other than the leader, as `OnPenaltyTimer`; none goes out exactly when the latency is within the threshold, the replica leads, no other node is known, or it would propose itself. |
| Replica.Node.ChooseProposed | src/node.cpp:1478-1488 | The loop finds a node of lowest penalty other than the leader, and none if and only if there is no such node. |
| Replica.Node.CheckPetitions | src/node.cpp:1830-1842 | The loop succeeds if and only if no petitioner reported less than the latency to it. |
| Replica.Node.HandlePetition | src/node.cpp:1775-1877 | As `OnPetition`: petitions refused, repeated, counted, and answered by a step-down request. |
| Necessity.NeedVotesCountedOnce | src/node.cpp:1062-1086 | Without A2 there is a run of two replicas with two leaders in one term. |
| Necessity.NeedNoVoteAfterLeader | src/node.cpp:1294-1294 | Without A3 there is a run of three replicas with two leaders in one term. |
| Necessity.NeedTaskIsFresh | src/node.cpp:1092-1105 | Without A4 there is a run of two replicas with two leaders in one term. |
| Necessity.NeedNoStaleSuccess | src/node.cpp:1886-1912 | Without A5 there is a run of five replicas that consider different entries committed at one index. |
| Necessity.NeedCommitIsVouched | src/node.cpp:1366-1369 | Without A6 there is a run of three replicas that consider different entries committed at one index. |
| Necessity.EvenClusterMisreported | scripts/verify_consistency.py:57-80 | An admitted run of two replicas after which the offline check finds no opinion with a quorum at a committed index. |
| Checker.CountOpinions | scripts/verify_consistency.py:63-70 | The counter holds exactly the opinions present, each with the number of dumps that have it. |
| Checker.MostCommon | scripts/verify_consistency.py:72-72 | An opinion with the largest count, and its count. |
| Checker.AllIndices | scripts/verify_consistency.py:59-59 | Exactly the indices that occur in some dump. |
| Checker.MajorityConsistent | scripts/verify_consistency.py:57-80 | True if and only if at every index of some dump an opinion, value or missing, is held by a majority of dumps. |
| Checker.QuorumOpinionUnique | scripts/verify_consistency.py:18-21 | At most one opinion has a quorum at an index. |
| Checker.CheckerSeesCommitted | scripts/verify_consistency.py:57-80 | In every state of an admitted run, only the committed entry can have a quorum at a committed index, and it lacks one if and only if n is even and exactly half of the dumps hold it. |
| RoundRobin.Pass | src/node.cpp:800-814 | A pass serves the first queue in cyclic order that its own probe finds non-empty, removes only its head and stops just after it; a pass that finds nothing stops where it began. |
| RoundRobin.PassGetsCloser | src/node.cpp:800-814 | If a pass that gets as far as a queue finds it non-empty, it serves that queue or stops at a smaller cyclic distance from it, whatever other threads add or take between probes. |
| RoundRobin.ServedWithin | src/node.cpp:735-831 | A queue that is non-empty whenever it is probed is served within as many passes as its cyclic distance plus one. |
| RoundRobin.ServedInTime | src/node.cpp:735-831 | A queue that is non-empty whenever it is probed is served among the first numQs passes, all of which up to then dequeue something, whatever other threads add or take meanwhile. |
| ClientWindow.SessionConsistent | src/client.cpp:78-285 | Over every session with cap at least 1, the window is between 0 and the cap and at most the number of timed requests, and ids are issued once each in order. |
| ClientWindow.CapKeptIff | src/client.cpp:78-94 | The window never exceeds the cap in any session if and only if the cap is at least 1. |
| ClientWindow.ReceiveFills | src/client.cpp:182-285 | When sends succeed, every response processed to its end leaves the window exactly full. |
| ClientWindow.StartSends | src/client.cpp:78-94 | The start sends one request, or the whole window in max-in-flight mode, with consecutive ids. |
| ClientWindow.TimerSends | src/client.cpp:138-150 | The send timer sends one request at a fixed rate, and otherwise as many as fill the window. |
| ClientWindow.TimeoutSends | src/client.cpp:152-163 | A timeout with requests in flight forgets them and sends a whole window; otherwise it does nothing. |
| ClientWindow.ReceiveSettles | src/client.cpp:182-285 | A response moves the client to the server it names and ends the timing of exactly its own request, unless the handler returns early. |
| ClientWindow.ServerIsLastNamed | src/client.cpp:213-236 | Over every session the server is the one the last failed response with a valid address named, or the first. |
| ClientWindow.RedirectSends | src/client.cpp:201-246 | When sends succeed, a redirection sends the whole window and one request more, an empty address one request. |
| ClientWindow.SuccessSendsNext | src/client.cpp:275-284 | A response to a full window sends exactly one more request. |
| ClientObject.Client.SendRequest | src/client.cpp:96-136 | One id used and timed; the window grows only when the send succeeds in max-in-flight mode. |
| ClientObject.Client.Run | src/client.cpp:78-94 | The session's start, as `OnStart`. |
| ClientObject.Client.TimeoutCallback | src/client.cpp:152-163 | As `OnTimeout`: the window is emptied and refilled if it was not empty. |
| ClientObject.Client.HandleResponse | src/client.cpp:182-285 | As `OnReceive`: redirection, early returns, and refilling. |
| Timeouts.StatManager.AggregateTcpStats | lib/tcp_stat_manager.cpp:574-603 | The connection's windows get the sample, dropping the oldest at 1000, and its 32-bit counters and time are updated; no other connection changes. |
| Timeouts.WindowIsRecent | lib/tcp_stat_manager.cpp:574-603 | After any samples the windows hold the most recent 1000 at most, in order and paired. |
| Timeouts.CountersAreTotals | lib/tcp_stat_manager.cpp:574-603 | After any samples the counters are the numbers of samples and retransmissions modulo 2^32, and the time is the last sample's unless there was only one. |
| Timeouts.FindRank | src/node.cpp:429-438 | The rank is the last position of the node's id, absent if and only if the id is. |
| Timeouts.RankCounts | src/node.cpp:421-438 | In any ascending arrangement, ties or not, a node's rank is at least the number of smaller penalties and less than the number of penalties that are no larger. |
| Timeouts.TieFreeRank | src/node.cpp:421-438 | Without ties the rank is the number of smaller penalties. |
| Timeouts.RanksFollowPenalties | src/node.cpp:421-438 | Of two nodes with the same penalties, the one with the smaller penalty has the smaller rank, however each arranged ties. |
| Timeouts.DelaysFollowPenalties | src/node.cpp:421-448 | Nodes with the same penalties draw safety delays in the order of their penalties, whatever is drawn and however ties are arranged. |
| Timeouts.WindowNonNegative | lib/tcp_stat_manager.cpp:574-603 | After any non-negative samples both windows hold only non-negative values. |
| Timeouts.JacobsonInRange | lib/tcp_stat_manager.cpp:58-73 | With non-negative samples the estimate is between 0 and 800. |
| Timeouts.JacobsonTimeoutBounded | src/node.cpp:429-476 | After any non-negative samples the Jacobson timeout is between the margins of the replica's rank and 800 plus margin, lower bound and step times rank + 1. |
| Timeouts.JacobsonIsEstimate | lib/tcp_stat_manager.cpp:58-73 | With w samples in the window the estimate is the sum of rtt + 8 rttVar over the last w samples divided by 2w, but at most 800, and 0 without samples. |
| Timeouts.JacobsonTimeoutIs | src/node.cpp:470-476 | The Jacobson timeout is that estimate plus the heartbeat margin and the drawn delay. |
| Pooled.PooledIsExact | scripts/tasks.py:1243-1252 | The weighted mean and variance from per-node counts, means and deviations are the mean and population variance of all samples together. |
| Pooled.NodeSpread | scripts/tasks.py:1251-1251 | A node's term of the weighted variance is the squared distance of its samples from the centre. |
| Pooled.VarianceTimesCount | scripts/remote_detect_stats.py:73-77 | The population variance times the count is the sum of squared deviations, also for no or one sample. |

## Left out

- Assumptions A2 to A5: that a run breaking one of them can fail is shown by a run; that every such run fails is not claimed, because many do not.
- Termination of the proposal loop: a client request is an event only if its loop ends; `Batcher.StreamEndsIff` says exactly when it does.
- CatchUp.FollowerCatchesUp: the exchange runs between two replicas with nothing else happening meanwhile.
- Timeouts.DelaysFollowPenalties: the order is not strict, because two neighbouring intervals share an end point.
- Timeouts.JacobsonTimeoutBounded: asks for the node's own penalty in the list, without which the code reads an uninitialised rank; `FindRank` reports that case.
- RoundRobin.Pass: a queue is a sequence whose dequeue succeeds when it is not empty; other threads are seen only through the contents each probe finds; back-off and shutdown are not modelled.
- Replica.Node.PenaltyTimer: the scores are an input, so how they are computed is not modelled, and a node's name stands for its address; in `Cluster` the node proposed is a free choice, which covers every score map.
- Replica.Node.HandleClientRequest: the followers passed over, in flight or excluded by address, are a free choice; the refusal keeps the leader's name and the two ids, not the text.
- Replica.Node.UpdateCommitIndex: a reply is a client id and a request id; addresses and the rest of the message are not modelled.
- ClientObject.Client.HandleResponse: whether an address parses is an input; latency statistics are not modelled.
- Integers are unbounded; the source uses 32-bit terms, indices and ids.
- Floating point is replaced by exact reals in `Timeouts` and `Pooled`.
- Crashes and persistence, which the source does not implement.
- Timers as clocks: any timer may fire at any time, so nothing is said about election liveness.
- Confidence-interval timeouts, which need square roots and a table.
- Parsing of log dumps, which turns text lines into the maps that `Checker` starts from.
- Sockets, protobuf encoding, lock-free queues, netlink, logging, deployment and plotting scripts.
- Snapshots, whose messages are declared and never handled.
