// What an event of one replica leaves true: everything about the other
// replicas, the old messages and the old part of the history.
module Stability {
  import opened Types
  import opened LogOps
  import opened Cluster
  import opened Invariant

  ghost predicate ElectionGrows(a: Election, b: Election) {
    a.leader == b.leader && a.voters == b.voters && a.initial == b.initial && Agree(a.log, b.log, |a.log|)
  }

  // Reigns, votes and acknowledgements are only ever added to.
  ghost predicate HistGrows(h: History, h': History) {
    && (forall t :: t in h.elections ==> t in h'.elections && ElectionGrows(h.elections[t], h'.elections[t]))
    && (forall k :: k in h.votes ==> k in h'.votes && h'.votes[k] == h.votes[k])
    && (forall k :: k in h.acks ==> k in h'.acks && h'.acks[k] >= h.acks[k])
  }

  // Replica i, now in term T, adds to the history.
  ghost predicate HistStep(h: History, h': History, i: nat, T: nat) {
    && HistGrows(h, h')
    && (forall t :: t in h.elections && h'.elections[t] != h.elections[t] ==> t == T && h.elections[t].leader == i)
    && (forall t :: t in h'.elections && t !in h.elections ==> t == T && h'.elections[t].leader == i)
    && (forall k :: k in h'.votes && k !in h.votes ==> k == (T, i))
    && (forall k :: k in h.acks && k != (T, i) ==> h'.acks[k] == h.acks[k])
    && (forall k :: k in h'.acks && k !in h.acks ==> k == (T, i))
  }

  // Acknowledgements are of entries that exist.
  ghost predicate AcksBounded(h: History) {
    forall t, y :: (t, y) in h.acks ==> t in h.elections && h.acks[(t, y)] <= |h.elections[t].log|
  }

  lemma TracedStable(h: History, h': History, log: seq<LogEntry>)
    requires HistGrows(h, h') && Traced(h, log)
    ensures Traced(h', log)
  {
    forall k | 0 <= k < |log| ensures TracedAt(h', log, k) {
      assert TracedAt(h, log, k);
    }
  }

  lemma OvertakenStable(h: History, h': History, t: nat, idx: nat, bound: nat, bound': nat)
    requires HistGrows(h, h') && t in h.elections && bound <= bound'
    requires idx <= |h.elections[t].log| && Overtaken(h, t, idx, bound)
    ensures Overtaken(h', t, idx, bound')
  {
    var w :| w in h.elections && t < w < bound && Misses(h, w, t, idx);
    assert Misses(h', w, t, idx);
  }

  lemma CommittedStable(n: nat, h: History, h': History, t: nat, idx: nat)
    requires HistGrows(h, h') && Committed(n, h, t, idx)
    ensures Committed(n, h', t, idx)
  {
    var a, a' := AckSet(n, h, t, idx), AckSet(n, h', t, idx);
    assert a <= a';
    SubsetSize(a, a');
  }

  lemma CertifiedStable(n: nat, h: History, h': History, log: seq<LogEntry>, log': seq<LogEntry>, c: nat, bound: nat,
                        bound': nat)
    requires HistGrows(h, h') && bound <= bound'
    requires Certified(n, h, log, c, bound) && Agree(log, log', c)
    ensures Certified(n, h', log', c, bound')
  {
    if c > 0 {
      var t: nat, idx: nat :| CertifiedBy(n, h, log, c, bound, t, idx);
      CommittedStable(n, h, h', t, idx);
      assert CertifiedBy(n, h', log', c, bound', t, idx);
    }
  }

  // A vote's promise survives: its voter acknowledges nothing of older terms any more.
  lemma CoversStable(h: History, h': History, i: nat, T: nat, log: seq<LogEntry>, W: nat, y: nat)
    requires HistStep(h, h', i, T) && AcksBounded(h)
    requires Covers(h, log, W, y)
    requires y == i ==> W <= T
    ensures Covers(h', log, W, y)
  {
    forall t, idx: nat | t in h'.elections && t < W ensures CoversAt(h', log, W, y, t, idx) {
      assert Ack(h', t, y) == Ack(h, t, y);
      if t in h.elections && 1 <= idx <= Ack(h, t, y) {
        assert CoversAt(h, log, W, y, t, idx);
        if Overtaken(h, t, idx, W) {
          OvertakenStable(h, h', t, idx, W, W);
        }
      }
    }
  }

  lemma KeepsStable(h: History, h': History, i: nat, T: nat, log: seq<LogEntry>, y: nat, bound: nat, bound': nat)
    requires HistStep(h, h', i, T) && AcksBounded(h)
    requires Keeps(h, log, y, bound) && bound <= bound'
    requires forall t :: Ack(h', t, y) == Ack(h, t, y)
    ensures Keeps(h', log, y, bound')
  {
    forall t, idx: nat | t in h'.elections ensures KeepsAt(h', log, y, bound', t, idx) {
      assert Ack(h', t, y) == Ack(h, t, y);
      if t in h.elections && idx <= Ack(h, t, y) {
        assert KeepsAt(h, log, y, bound, t, idx);
        if Overtaken(h, t, idx, bound) {
          OvertakenStable(h, h', t, idx, bound, bound');
        }
      }
    }
  }

  // ---- one event of replica i ----

  ghost predicate LocalStep(cfg: Config, s: State, s': State, i: nat) {
    && Shape(cfg, s) && Shape(cfg, s') && i < cfg.n
    && (forall j :: 0 <= j < cfg.n && j != i ==>
          && s'.nodes[j] == s.nodes[j] && s'.hist.counted[j] == s.hist.counted[j]
          && s'.hist.heard[j] == s.hist.heard[j])
    && s.net <= s'.net
    && HistStep(s.hist, s'.hist, i, s'.nodes[i].term)
    && var x, x' := s.nodes[i], s'.nodes[i];
       && x.term <= x'.term
       && (x'.term == x.term && x'.role.Candidate? ==> x.role.Candidate? && x'.log == x.log)
       && (x'.term == x.term ==>
             && (s.hist.heard[i] ==> s'.hist.heard[i])
             && (s'.hist.heard[i] || x.votedFor.None? || x'.votedFor == x.votedFor))
  }

  lemma InvAcksBounded(cfg: Config, sc: Scope, s: State)
    requires Inv(cfg, sc, s)
    ensures AcksBounded(s.hist)
  {
    forall t, y | (t, y) in s.hist.acks
      ensures t in s.hist.elections && s.hist.acks[(t, y)] <= |s.hist.elections[t].log|
    {
      assert PartOk(cfg, sc, s, AckPart(t, y));
    }
  }

  lemma ElectionsStable(cfg: Config, sc: Scope, s: State, s': State, i: nat)
    requires Inv(cfg, sc, s) && LocalStep(cfg, s, s', i)
    ensures forall W :: W in s.hist.elections && s'.hist.elections[W] == s.hist.elections[W] ==> ElectionOk(cfg, s', W)
  {
    InvAcksBounded(cfg, sc, s);
    forall W | W in s.hist.elections && s'.hist.elections[W] == s.hist.elections[W] ensures ElectionOk(cfg, s', W) {
      assert PartOk(cfg, sc, s, TermPart(W));
      var T, el := s'.nodes[i].term, s.hist.elections[W];
      TracedStable(s.hist, s'.hist, el.log);
      forall y | y in el.voters ensures Covers(s'.hist, el.initial, W, y) {
        assert PartOk(cfg, sc, s, VotePart(W, y));
        CoversStable(s.hist, s'.hist, i, T, el.initial, W, y);
      }
    }
  }

  lemma VotesStable(cfg: Config, sc: Scope, s: State, s': State, i: nat)
    requires Inv(cfg, sc, s) && LocalStep(cfg, s, s', i)
    ensures forall W, y :: (W, y) in s.hist.votes ==> VoteOk(cfg, s', W, y)
  {
    InvAcksBounded(cfg, sc, s);
    forall W, y | (W, y) in s.hist.votes ensures VoteOk(cfg, s', W, y) {
      assert PartOk(cfg, sc, s, VotePart(W, y));
      var c := s.hist.votes[(W, y)];
      if W == s'.nodes[c].term && s'.nodes[c].role.Candidate? {
        CoversStable(s.hist, s'.hist, i, s'.nodes[i].term, s.nodes[c].log, W, y);
      }
    }
  }

  ghost predicate NodesOk(cfg: Config, sc: Scope, s: State)
    requires Shape(cfg, s)
  {
    forall j {:trigger NodeOk(cfg, sc, s, j)} :: 0 <= j < cfg.n ==> NodeOk(cfg, sc, s, j)
  }

  lemma NodesStable(cfg: Config, sc: Scope, s: State, s': State, i: nat)
    requires Inv(cfg, sc, s) && LocalStep(cfg, s, s', i) && NodeOk(cfg, sc, s', i)
    ensures NodesOk(cfg, sc, s')
  {
    forall j | 0 <= j < cfg.n && j != i ensures NodeOk(cfg, sc, s', j) {
      assert NodeOk(cfg, sc, s, j) by { assert PartOk(cfg, sc, s, NodePart(j)); }
      var x, T := s.nodes[j], s'.nodes[i].term;
      assert LeaderOk(cfg, s', j) && CandidateOk(cfg, s', j);
      assert sc.Logs? || NodeMatch(cfg, s', j);
      assert NodeLog(cfg, s', j) by { TracedStable(s.hist, s'.hist, x.log); }
      assert Keeps(s'.hist, x.log, j, Bound(s', j)) by {
        InvAcksBounded(cfg, sc, s);
        KeepsStable(s.hist, s'.hist, i, T, x.log, j, Bound(s, j), Bound(s', j));
      }
      if sc.Commits? {
        CertifiedStable(cfg.n, s.hist, s'.hist, x.log, x.log, x.commitIndex, x.term, x.term);
      }
    }
  }

  lemma MsgsStable(cfg: Config, sc: Scope, s: State, s': State, i: nat)
    requires Inv(cfg, sc, s) && LocalStep(cfg, s, s', i)
    ensures forall m :: m in s.net ==> MsgOk(cfg, sc, s', m)
  {
    forall m | m in s.net ensures MsgOk(cfg, sc, s', m) {
      assert PartOk(cfg, sc, s, MsgPart(m));
      if m.AppendEntries? && sc.Commits? {
        var log, log' := s.hist.elections[m.term].log, s'.hist.elections[m.term].log;
        CertifiedStable(cfg.n, s.hist, s'.hist, log, log', m.leaderCommit, m.term, m.term);
      }
    }
  }

  // The reigns that began or grew.
  ghost predicate NewReignsOk(cfg: Config, s: State, s': State)
    requires Shape(cfg, s')
  {
    forall T :: T in s'.hist.elections && !(T in s.hist.elections && s'.hist.elections[T] == s.hist.elections[T])
      ==> ElectionOk(cfg, s', T)
  }

  // What is left to show after an event of replica i.
  lemma InvFromLocal(cfg: Config, sc: Scope, s: State, s': State, i: nat)
    requires Inv(cfg, sc, s) && LocalStep(cfg, s, s', i)
    requires NewReignsOk(cfg, s, s')
    requires var k := (s'.nodes[i].term, i); k in s'.hist.votes && k !in s.hist.votes ==> VoteOk(cfg, s', k.0, k.1)
    requires var k := (s'.nodes[i].term, i);
             k in s'.hist.acks && !(k in s.hist.acks && s'.hist.acks[k] == s.hist.acks[k]) ==> AckOk(cfg, s', k.0, k.1)
    requires NodesOk(cfg, sc, s')
    requires forall m :: m in s'.net && m !in s.net ==> MsgOk(cfg, sc, s', m)
    ensures Inv(cfg, sc, s')
  {
    ElectionsStable(cfg, sc, s, s', i);
    VotesStable(cfg, sc, s, s', i);
    MsgsStable(cfg, sc, s, s', i);
    forall p ensures PartOk(cfg, sc, s', p) {
      match p
      case TermPart(T) => assert T in s'.hist.elections ==> ElectionOk(cfg, s', T);
      case VotePart(T, y) => assert (T, y) in s'.hist.votes ==> VoteOk(cfg, s', T, y);
      case AckPart(T, y) => assert PartOk(cfg, sc, s, p);
      case NodePart(j) => assert j < cfg.n ==> NodeOk(cfg, sc, s', j);
      case MsgPart(m) => assert m in s'.net ==> MsgOk(cfg, sc, s', m);
    }
  }
}
