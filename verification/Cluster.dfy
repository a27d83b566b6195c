// A cluster of n replicas as a transition system: one event per handler or
// timer callback, over a network that may lose, delay, reorder and duplicate.
// Handlers are atomic (A1), peers are distinct and keep their state (A7).
module Cluster {
  import opened Types
  import opened LogOps
  import opened Handlers

  datatype Event =
    | Timeout(i: nat)
    | LeaderTask(i: nat)
    | Heartbeat(i: nat)
    | Failure(i: nat)
    | PenaltyTimer(i: nat, proposed: nat, rtt: map<nat, real>)
    | ClientRequest(i: nat, command: string, clientId: int, requestId: int, skip: set<nat>)
    | Deliver(m: Msg, rtt: map<nat, real>)

  // One reign: who won the term, with whose votes, the log it won with and the log it has now.
  datatype Election = Election(leader: nat, voters: set<nat>, initial: seq<LogEntry>, log: seq<LogEntry>)

  // What happened so far.  No handler reads it; it serves to state the
  // assumptions below and the invariants.
  datatype History = History(
    elections: map<nat, Election>,       // by term
    votes: map<(nat, nat), nat>,         // (term, voter) -> candidate granted
    acks: map<(nat, nat), nat>,          // (term, replica) -> highest index it holds of that term's log
    counted: seq<set<nat>>,              // whose votes each replica counted in its term
    heard: seq<bool>)                    // has it processed an AppendEntries of its term

  datatype State = State(nodes: seq<NodeState>, net: set<Msg>, hist: History)

  function Init(cfg: Config): State {
    State(seq(cfg.n, _ => InitNode(cfg.n)), {},
          History(map[], map[], map[], seq(cfg.n, _ => {}), seq(cfg.n, _ => false)))
  }

  ghost predicate Shape(cfg: Config, s: State) {
    && |s.nodes| == cfg.n
    && |s.hist.counted| == cfg.n && |s.hist.heard| == cfg.n
    && forall j :: 0 <= j < cfg.n ==> Sized(cfg, s.nodes[j])
  }

  function Actor(e: Event): nat {
    match e case Deliver(m, _) => m.dst case _ => e.i
  }

  ghost predicate Enabled(cfg: Config, s: State, e: Event) {
    && Shape(cfg, s)
    && Actor(e) < cfg.n
    && var x := s.nodes[Actor(e)];
       match e
       case Deliver(m, _) => m in s.net && m.src < cfg.n
       case LeaderTask(_) => x.leaderTasks > 0
       case ClientRequest(i, command, clientId, requestId, skip) =>
         x.role.Leader? ==> ProposalsEnd(cfg, i, Appended(x, command, clientId, requestId), skip)
       case _ => true
  }

  ghost function Handle(cfg: Config, s: State, e: Event): Outcome
    requires Enabled(cfg, s, e)
  {
    var i := Actor(e);
    var x := s.nodes[i];
    match e
    case Timeout(_) => OnTimeout(cfg, i, x)
    case LeaderTask(_) => OnLeaderTask(cfg, i, x)
    case Heartbeat(_) => OnHeartbeat(cfg, i, x)
    case Failure(_) => OnFailure(x)
    case PenaltyTimer(_, proposed, rtt) => OnPenaltyTimer(cfg, i, x, proposed, rtt)
    case ClientRequest(_, command, clientId, requestId, skip) =>
      OnClientRequest(cfg, i, x, command, clientId, requestId, skip)
    case Deliver(m, rtt) =>
      match m
      case RequestVote(_, _, _, _, _, _) => OnRequestVote(i, x, m)
      case VoteResponse(_, _, _, _) => OnVoteResponse(cfg, x, m)
      case AppendEntries(_, _, _, _, _, _, _) => OnAppendEntries(i, x, m)
      case AppendResponse(_, _, _, _, _) => OnAppendResponse(cfg, x, m)
      case Petition(_, _, _, _, _, _) => OnPetition(cfg, i, x, m, rtt)
  }

  // ---- what the events add to the history ----

  predicate Grants(e: Event, out: Outcome) {
    e.Deliver? && e.m.RequestVote? && !e.m.isPetition
    && |out.sent| == 1 && out.sent[0].VoteResponse? && out.sent[0].granted
  }

  predicate CountsVote(x: NodeState, e: Event) {
    e.Deliver? && e.m.VoteResponse? && x.role.Candidate? && e.m.term <= x.term && e.m.granted
  }

  predicate Hears(x: NodeState, m: Msg)
    requires m.AppendEntries?
  {
    m.term >= x.term && m.src != m.dst
  }

  predicate Takes(x: NodeState, m: Msg)
    requires m.AppendEntries?
  {
    Hears(x, m) && ContainsEntry(x.log, m.prevLogIndex, m.prevLogTerm)
  }

  predicate HearsLeader(x: NodeState, e: Event) {
    e.Deliver? && e.m.AppendEntries? && Hears(x, e.m)
  }

  predicate Accepts(x: NodeState, e: Event) {
    e.Deliver? && e.m.AppendEntries? && Takes(x, e.m)
  }

  function Ack(h: History, t: nat, y: nat): nat {
    if (t, y) in h.acks then h.acks[(t, y)] else 0
  }

  function NewElections(h: History, i: nat, e: Event, out: Outcome): map<nat, Election>
    requires i < |h.counted|
  {
    var y := out.node;
    if e.LeaderTask? && y.term !in h.elections then
      h.elections[y.term := Election(i, h.counted[i], y.log, y.log)]
    else if e.ClientRequest? && y.role.Leader? && y.term in h.elections then
      h.elections[y.term := h.elections[y.term].(log := y.log)]
    else h.elections
  }

  function NewAcks(h: History, i: nat, x: NodeState, e: Event, out: Outcome): map<(nat, nat), nat> {
    var y := out.node;
    if (e.LeaderTask? && y.term !in h.elections) || (e.ClientRequest? && y.role.Leader?) then
      h.acks[(y.term, i) := |y.log|]
    else if Accepts(x, e) then
      h.acks[(y.term, i) := Max(Ack(h, y.term, i), e.m.prevLogIndex + |e.m.entries|)]
    else h.acks
  }

  ghost function Record(cfg: Config, s: State, e: Event, out: Outcome): History
    requires Enabled(cfg, s, e)
  {
    var h, i := s.hist, Actor(e);
    var x, y := s.nodes[i], out.node;
    History(
      NewElections(h, i, e, out),
      if Grants(e, out) then h.votes[(y.term, i) := e.m.src] else h.votes,
      NewAcks(h, i, x, e, out),
      h.counted[i := if y.term != x.term then {}
                     else if CountsVote(x, e) then h.counted[i] + {e.m.src}
                     else h.counted[i]],
      h.heard[i := HearsLeader(x, e) || (y.term == x.term && h.heard[i])])
  }

  ghost function Step(cfg: Config, s: State, e: Event): State
    requires Enabled(cfg, s, e)
  {
    var out := Handle(cfg, s, e);
    State(s.nodes[Actor(e) := out.node], s.net + (set m | m in out.sent), Record(cfg, s, e, out))
  }

  // ---- the assumptions under which the code is safe ----

  // A2: a granted vote is counted in the term it was given in, once per voter.
  ghost predicate VotesCountedOnce(s: State, e: Event)
    requires Actor(e) < |s.nodes| && Actor(e) < |s.hist.counted|
  {
    var x := s.nodes[Actor(e)];
    CountsVote(x, e) ==> e.m.term == x.term && e.m.src !in s.hist.counted[Actor(e)]
  }

  // x grants the request without changing its term.
  predicate GrantsInTerm(x: NodeState, m: Msg)
    requires m.RequestVote?
  {
    && !m.isPetition && m.term == x.term
    && (x.votedFor.None? || x.votedFor == Some(m.src)) && UpToDate(m.lastLogTerm, m.lastLogIndex, x.log)
  }

  // A3: no vote request of its term that a replica would grant reaches it after it
  // processed an AppendEntries of that term, which cleared voted_for.
  ghost predicate NoVoteAfterLeader(s: State, e: Event)
    requires Actor(e) < |s.nodes| && Actor(e) < |s.hist.heard|
  {
    e.Deliver? && e.m.RequestVote? && GrantsInTerm(s.nodes[Actor(e)], e.m) ==> !s.hist.heard[Actor(e)]
  }

  // A4: a queued become_leader runs only on a leader, or on a candidate that has
  // the votes for its current term; become_leader tests neither.
  ghost predicate TaskIsFresh(s: State, e: Event)
    requires Actor(e) < |s.nodes|
  {
    var x := s.nodes[Actor(e)];
    e.LeaderTask? ==> x.role.Leader? || (x.role.Candidate? && x.votesReceived >= ElectionQuorum(|s.nodes|))
  }

  predicate NotStale(x: NodeState, m: Msg)
    requires m.AppendResponse?
  {
    m.success && x.role.Leader? ==>
      m.term >= x.term || (m.src < |x.matchIndex| && m.matchIndex <= x.matchIndex[m.src])
  }

  // A5: a success of an older term that reaches a leader claims no more than the
  // leader's match index.
  ghost predicate NoStaleSuccess(s: State, e: Event)
    requires Actor(e) < |s.nodes|
  {
    e.Deliver? && e.m.AppendResponse? ==> NotStale(s.nodes[Actor(e)], e.m)
  }

  // What the receiver can test: the message vouches for the entry at c, or that
  // entry is of the sender's term.
  predicate Vouched(m: Msg, log: seq<LogEntry>, c: nat)
    requires m.AppendEntries? && c <= |log|
  {
    c == 0 || c <= m.prevLogIndex + |m.entries| || log[c - 1].term == m.term
  }

  // What it cannot see: the sender's entry at c is of the same term.
  predicate SharesTerm(h: History, m: Msg, log: seq<LogEntry>, c: nat)
    requires m.AppendEntries? && c <= |log|
  {
    && m.term in h.elections && 1 <= c <= |h.elections[m.term].log|
    && log[c - 1].term == h.elections[m.term].log[c - 1].term
  }

  // A6: when an accepted AppendEntries advances the commit index, the entry at
  // the new commit index is one the receiver can trust by such a test, or is, as
  // nobody tells the receiver, of the same term as the sender's.
  ghost predicate CommitIsVouched(s: State, e: Event)
    requires Actor(e) < |s.nodes|
  {
    var x := s.nodes[Actor(e)];
    Accepts(x, e) && e.m.leaderCommit > x.commitIndex ==>
      var log := Splice(x.log, e.m.prevLogIndex, e.m.entries);
      var c := Min(e.m.leaderCommit, |log|);
      Vouched(e.m, log, c) || SharesTerm(s.hist, e.m, log, c)
  }

  // What a result speaks of: elections and logs, which need A2..A4; what a leader
  // knows of its followers, which needs A5 too; commit indices, which need all.
  datatype Scope = Logs | Matches | Commits

  ghost predicate Admitted(sc: Scope, s: State, e: Event)
    requires Actor(e) < |s.nodes| && Actor(e) < |s.hist.counted|
    requires Actor(e) < |s.hist.heard|
  {
    && VotesCountedOnce(s, e)
    && NoVoteAfterLeader(s, e)
    && TaskIsFresh(s, e)
    && (sc.Logs? || NoStaleSuccess(s, e))
    && (sc.Commits? ==> CommitIsVouched(s, e))
  }

  // ---- runs ----

  ghost predicate Next(cfg: Config, s: State, e: Event, s': State) {
    Enabled(cfg, s, e) && s' == Step(cfg, s, e)
  }

  ghost predicate StepAt(cfg: Config, states: seq<State>, events: seq<Event>, k: nat)
    requires k < |events| && |states| == |events| + 1
  {
    Next(cfg, states[k], events[k], states[k + 1])
  }

  // A run of the code: one more state than events.  That every state is
  // well-shaped follows from the steps and is said here for convenience.
  ghost predicate IsRun(cfg: Config, states: seq<State>, events: seq<Event>) {
    && |states| == |events| + 1
    && states[0] == Init(cfg)
    && (forall k {:trigger states[k].nodes} :: 0 <= k < |states| ==> Shape(cfg, states[k]))
    && forall k {:trigger StepAt(cfg, states, events, k)} :: 0 <= k < |events| ==> StepAt(cfg, states, events, k)
  }

  lemma ShapeStep(cfg: Config, s: State, e: Event)
    requires Enabled(cfg, s, e)
    ensures Shape(cfg, Step(cfg, s, e))
  {
  }

  // A run in which the assumptions for `sc` hold at every event.
  ghost predicate IsAdmittedRun(cfg: Config, sc: Scope, states: seq<State>, events: seq<Event>) {
    && IsRun(cfg, states, events)
    && forall k {:trigger StepAt(cfg, states, events, k)} :: 0 <= k < |events| ==>
         StepAt(cfg, states, events, k) && Admitted(sc, states[k], events[k])
  }
}
