// The inductive invariant behind the safety theorems.
module Invariant {
  import opened Types
  import opened LogOps
  import opened Cluster

  // ---- facts about logs that depend only on the history ----

  // Every entry was put at its index by the leader of its term, after the same entries.
  ghost predicate Traced(h: History, log: seq<LogEntry>) {
    forall k {:trigger TracedAt(h, log, k)} :: 0 <= k < |log| ==> TracedAt(h, log, k)
  }

  ghost predicate TracedAt(h: History, log: seq<LogEntry>, k: nat)
    requires k < |log|
  {
    log[k].term in h.elections && Agree(log, h.elections[log[k].term].log, k + 1)
  }

  // The winner of term T started without the first idx entries of term t's log.
  ghost predicate Misses(h: History, T: nat, t: nat, idx: nat)
    requires T in h.elections && t in h.elections
  {
    !Agree(h.elections[T].initial, h.elections[t].log, idx)
  }

  // Some term after t and below `bound` was won without those entries.
  ghost predicate Overtaken(h: History, t: nat, idx: nat, bound: nat)
    requires t in h.elections
  {
    exists T {:trigger Misses(h, T, t, idx)} :: T in h.elections && t < T < bound && Misses(h, T, t, idx)
  }

  // A replica that acknowledged idx entries of term t's log still holds them,
  // unless a later term below `bound` was won without them.
  ghost predicate KeepsAt(h: History, log: seq<LogEntry>, y: nat, bound: nat, t: nat, idx: nat)
    requires t in h.elections
  {
    idx <= Ack(h, t, y) ==> Agree(log, h.elections[t].log, idx) || Overtaken(h, t, idx, bound)
  }

  ghost predicate Keeps(h: History, log: seq<LogEntry>, y: nat, bound: nat) {
    forall t, idx: nat {:trigger KeepsAt(h, log, y, bound, t, idx)} ::
      t in h.elections ==> KeepsAt(h, log, y, bound, t, idx)
  }

  // A log that won y's vote in term T holds what y had acknowledged and could be committed.
  ghost predicate CoversAt(h: History, log: seq<LogEntry>, T: nat, y: nat, t: nat, idx: nat)
    requires t in h.elections
  {
    1 <= idx <= Ack(h, t, y) && idx <= |h.elections[t].log| && h.elections[t].log[idx - 1].term == t
    ==> Agree(log, h.elections[t].log, idx) || Overtaken(h, t, idx, T)
  }

  ghost predicate Covers(h: History, log: seq<LogEntry>, T: nat, y: nat) {
    forall t, idx: nat {:trigger CoversAt(h, log, T, y, t, idx)} ::
      t in h.elections && t < T ==> CoversAt(h, log, T, y, t, idx)
  }

  function AckSet(n: nat, h: History, t: nat, idx: nat): set<nat> {
    set y: nat | y < n && Ack(h, t, y) >= idx
  }

  // A commit quorum acknowledged an entry of term t at idx.
  ghost predicate Committed(n: nat, h: History, t: nat, idx: nat) {
    && t in h.elections
    && 1 <= idx <= |h.elections[t].log|
    && h.elections[t].log[idx - 1].term == t
    && |AckSet(n, h, t, idx)| >= CommitQuorum(n)
  }

  ghost predicate CertifiedBy(n: nat, h: History, log: seq<LogEntry>, c: nat, bound: nat, t: nat, idx: nat) {
    Committed(n, h, t, idx) && t <= bound && c <= idx && Agree(log, h.elections[t].log, c)
  }

  // The first c entries of the log are committed, by term `bound` at the latest.
  ghost predicate Certified(n: nat, h: History, log: seq<LogEntry>, c: nat, bound: nat) {
    c == 0 || exists t, idx :: CertifiedBy(n, h, log, c, bound, t, idx)
  }

  ghost predicate SortedTerms(log: seq<LogEntry>) {
    forall j, k :: 0 <= j <= k < |log| ==> log[j].term <= log[k].term
  }

  // ---- the parts of the invariant ----

  ghost predicate ElectionShape(cfg: Config, s: State, T: nat)
    requires Shape(cfg, s) && T in s.hist.elections
  {
    var h, el := s.hist, s.hist.elections[T];
    && T >= 1 && el.leader < cfg.n && s.nodes[el.leader].term >= T
    && |el.voters| >= ElectionQuorum(cfg.n)
    && forall y :: y in el.voters ==> y < cfg.n && (T, y) in h.votes && h.votes[(T, y)] == el.leader
  }

  ghost predicate ElectionLog(h: History, T: nat)
    requires T in h.elections
  {
    var el := h.elections[T];
    && Agree(el.initial, el.log, |el.initial|)
    && (forall k :: 0 <= k < |el.initial| ==> el.initial[k].term < T)
    && (forall k :: |el.initial| <= k < |el.log| ==> el.log[k].term == T)
    && Traced(h, el.log)
    && SortedTerms(el.log)
  }

  ghost predicate ElectionCovers(h: History, T: nat)
    requires T in h.elections
  {
    forall y {:trigger Covers(h, h.elections[T].initial, T, y)} ::
      y in h.elections[T].voters ==> Covers(h, h.elections[T].initial, T, y)
  }

  ghost predicate ElectionOk(cfg: Config, s: State, T: nat)
    requires Shape(cfg, s) && T in s.hist.elections
  {
    ElectionShape(cfg, s, T) && ElectionLog(s.hist, T) && ElectionCovers(s.hist, T)
  }

  ghost predicate VoteOk(cfg: Config, s: State, T: nat, y: nat)
    requires Shape(cfg, s) && (T, y) in s.hist.votes
  {
    var c := s.hist.votes[(T, y)];
    && y < cfg.n && c < cfg.n
    && T <= s.nodes[y].term && T <= s.nodes[c].term
    && (T == s.nodes[y].term ==> s.hist.heard[y] || s.nodes[y].votedFor == Some(c))
    && (T == s.nodes[c].term && s.nodes[c].role.Candidate? ==> Covers(s.hist, s.nodes[c].log, T, y))
  }

  ghost predicate AckOk(cfg: Config, s: State, t: nat, y: nat)
    requires Shape(cfg, s) && (t, y) in s.hist.acks
  {
    y < cfg.n && t in s.hist.elections && t <= s.nodes[y].term && s.hist.acks[(t, y)] <= |s.hist.elections[t].log|
  }

  // Terms that may have rewritten the log of node i are below this.
  function Bound(s: State, i: nat): nat
    requires i < |s.nodes| && i < |s.hist.heard|
  {
    s.nodes[i].term + if s.hist.heard[i] then 1 else 0
  }

  ghost predicate NodeLog(cfg: Config, s: State, i: nat)
    requires Shape(cfg, s) && i < cfg.n
  {
    var x := s.nodes[i];
    && Traced(s.hist, x.log)
    && (forall k :: 0 <= k < |x.log| ==> x.log[k].term <= x.term)
    && (x.role.Candidate? ==> forall k :: 0 <= k < |x.log| ==> x.log[k].term < x.term)
  }

  ghost predicate NodeCommit(cfg: Config, s: State, i: nat)
    requires Shape(cfg, s) && i < cfg.n
  {
    var x := s.nodes[i];
    Certified(cfg.n, s.hist, x.log, x.commitIndex, x.term)
  }

  // A leader's log is that of its reign.
  ghost predicate LeaderOk(cfg: Config, s: State, i: nat)
    requires Shape(cfg, s) && i < cfg.n
  {
    var x, h := s.nodes[i], s.hist;
    x.role.Leader? ==>
      && x.term in h.elections && h.elections[x.term].leader == i
      && x.log == h.elections[x.term].log
      && Ack(h, x.term, i) == |x.log|
  }

  // What a leader knows of its followers is true.
  ghost predicate NodeMatch(cfg: Config, s: State, i: nat)
    requires Shape(cfg, s) && i < cfg.n
  {
    var x, h := s.nodes[i], s.hist;
    && x.matchIndex[i] == 0
    && (x.role.Leader? ==>
          forall f :: 0 <= f < cfg.n && f != i ==>
            1 <= x.nextIndex[f] <= |x.log| + 1 && 0 <= x.matchIndex[f] <= Ack(h, x.term, f))
  }

  // A candidate's count is the number of replicas that voted for it in its term.
  ghost predicate CandidateOk(cfg: Config, s: State, i: nat)
    requires Shape(cfg, s) && i < cfg.n
  {
    var x, h := s.nodes[i], s.hist;
    x.role.Candidate? ==>
      && !(x.term in h.elections && h.elections[x.term].leader == i)
      && x.term >= 1
      && x.votesReceived == |h.counted[i]|
      && forall y :: y in h.counted[i] ==> y < cfg.n && (x.term, y) in h.votes && h.votes[(x.term, y)] == i
  }

  ghost predicate NodeOk(cfg: Config, sc: Scope, s: State, i: nat)
    requires Shape(cfg, s) && i < cfg.n
  {
    && NodeLog(cfg, s, i)
    && Keeps(s.hist, s.nodes[i].log, i, Bound(s, i))
    && LeaderOk(cfg, s, i)
    && CandidateOk(cfg, s, i)
    && (sc.Logs? || NodeMatch(cfg, s, i))
    && (sc.Commits? ==> NodeCommit(cfg, s, i))
  }

  // The message carries a slice of the sender's log.  A leader that took a stale
  // success for its own may name an entry it does not have: with term 0, as no
  // replica's log has it.
  ghost predicate IsPiece(m: Msg, log: seq<LogEntry>)
    requires m.AppendEntries?
  {
    m.prevLogIndex == 0 || (m.prevLogIndex >= 1 && m.prevLogTerm != 0) ==>
      && IsSlice(m.entries, log, m.prevLogIndex)
      && (m.prevLogIndex >= 1 ==> m.prevLogTerm == log[m.prevLogIndex - 1].term)
  }

  ghost predicate AppendOk(n: nat, sc: Scope, h: History, m: Msg)
    requires m.AppendEntries?
  {
    && m.term in h.elections && h.elections[m.term].leader == m.src
    && var log := h.elections[m.term].log;
       IsPiece(m, log) && (sc.Commits? ==> Certified(n, h, log, m.leaderCommit, m.term))
  }

  ghost predicate MsgOk(cfg: Config, sc: Scope, s: State, m: Msg)
    requires Shape(cfg, s)
  {
    && m.src < cfg.n
    && match m
       case RequestVote(src, _, term, lastLogIndex, lastLogTerm, isPetition) =>
         term <= s.nodes[src].term
         && (!isPetition && s.nodes[src].term == term && s.nodes[src].role.Candidate? ==>
               lastLogIndex == |s.nodes[src].log| && lastLogTerm == LastTerm(s.nodes[src].log))
       case VoteResponse(src, dst, term, granted) =>
         granted ==> (term, src) in s.hist.votes && s.hist.votes[(term, src)] == dst
       case AppendEntries(_, _, _, _, _, _, _) => AppendOk(cfg.n, sc, s.hist, m)
       case AppendResponse(src, dst, term, success, matchIndex) =>
         success ==> src != dst && matchIndex <= Ack(s.hist, term, src)
       case Petition(_, _, _, _, _, _) => true
  }

  // The parts of the invariant by what they speak of.
  datatype Part =
    | TermPart(T: nat)
    | VotePart(T: nat, y: nat)
    | AckPart(T: nat, y: nat)
    | NodePart(i: nat)
    | MsgPart(m: Msg)

  ghost predicate PartOk(cfg: Config, sc: Scope, s: State, p: Part)
    requires Shape(cfg, s)
  {
    match p
    case TermPart(T) => T in s.hist.elections ==> ElectionOk(cfg, s, T)
    case VotePart(T, y) => (T, y) in s.hist.votes ==> VoteOk(cfg, s, T, y)
    case AckPart(T, y) => (T, y) in s.hist.acks ==> AckOk(cfg, s, T, y)
    case NodePart(i) => i < cfg.n ==> NodeOk(cfg, sc, s, i)
    case MsgPart(m) => m in s.net ==> MsgOk(cfg, sc, s, m)
  }

  ghost predicate Inv(cfg: Config, sc: Scope, s: State) {
    Shape(cfg, s) && forall p {:trigger PartOk(cfg, sc, s, p)} :: PartOk(cfg, sc, s, p)
  }

  lemma InitInv(cfg: Config, sc: Scope)
    ensures Inv(cfg, sc, Init(cfg))
  {
  }
}
