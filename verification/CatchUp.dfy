// A leader and one of its followers in a reachable state: after finitely many
// refused heartbeats the follower takes the leader's whole log.
module CatchUp {
  import opened Types
  import opened LogOps
  import opened Batcher
  import opened Handlers
  import opened Cluster
  import opened Invariant
  import opened Completeness
  import opened Safety
  import opened Replication

  // The refusals to come when the next index may also lie inside the common prefix.
  function Refusals(f: nat, p: Pair): nat
    requires f < |p.leader.nextIndex|
  {
    var d := Distance(f, p);
    if d > 0 then d else 0
  }

  // The follower has no entry of the leader's term where the leader will put its next one.
  ghost predicate NotAhead(p: Pair) {
    |p.leader.log| < |p.follower.log| ==> p.follower.log[|p.leader.log|].term != p.leader.term
  }

  // What the search for the common prefix needs holds in every reachable state.
  lemma ReachablePair(cfg: Config, states: seq<State>, events: seq<Event>, a: nat, i: nat, f: nat)
    requires IsAdmittedRun(cfg, Matches, states, events) && a < |states| && i < cfg.n && f < cfg.n && i != f
    requires states[a].nodes[i].role.Leader? && states[a].nodes[f].term <= states[a].nodes[i].term
    ensures Paired(cfg, i, f, Pair(states[a].nodes[i], states[a].nodes[f]))
    ensures NotAhead(Pair(states[a].nodes[i], states[a].nodes[f]))
  {
    var s := states[a];
    RunInv(cfg, Matches, states, events, a);
    assert NodeOk(cfg, Matches, s, i) by { assert PartOk(cfg, Matches, s, NodePart(i)); }
    assert NodeLog(cfg, s, f) by { assert PartOk(cfg, Matches, s, NodePart(f)); }
    var x, y := s.nodes[i], s.nodes[f];
    TracedMatch(s.hist, x.log, y.log);
    if |x.log| < |y.log| {
      assert TracedAt(s.hist, y.log, |x.log|);
    }
  }

  // After the refusals the next index is inside the common prefix.
  lemma Located(cfg: Config, i: nat, f: nat, p: Pair)
    requires Paired(cfg, i, f, p)
    ensures var q := Exchanges(cfg, i, f, p, Refusals(f, p));
            && Paired(cfg, i, f, q) && q.leader.term == p.leader.term
            && q.leader.log == p.leader.log && q.follower.log == p.follower.log
            && Agree(q.leader.log, q.follower.log, q.leader.nextIndex[f] - 1) && !Rejects(f, q)
  {
    if Distance(f, p) > 0 {
      BacktrackRounds(cfg, i, f, p, Distance(f, p));
    }
  }

  lemma SuffixFits(log: seq<LogEntry>, start: int, size: LogEntry -> nat)
    requires AllFit(log, size)
    ensures AllFit(Pending(log, start), size)
  {
  }

  // Feeding the follower everything pending gives it the leader's log.
  lemma PendingCompletes(cfg: Config, i: nat, f: nat, q: Pair)
    requires Paired(cfg, i, f, q) && AllFit(Pending(q.leader.log, q.leader.nextIndex[f]), cfg.entrySize)
    requires Agree(q.leader.log, q.follower.log, q.leader.nextIndex[f] - 1)
    ensures var ms := ProposalsTo(cfg, i, q.leader, f);
            && (forall b :: 0 <= b < |ms| ==> ms[b].AppendEntries?)
            && Agree(Feed(f, q.follower, ms).log, q.leader.log, |q.leader.log|)
  {
    var x, y, prev := q.leader, q.follower, q.leader.nextIndex[f] - 1;
    var pending := Pending(x.log, prev + 1);
    if prev < |x.log| {
      ChunkingInvisible(cfg, i, x, f, y);
      SpliceOutcome(y.log, prev, pending, x.log);
    } else {
      assert ProposalsTo(cfg, i, x, f) == [];
    }
  }

  // ---- the messages of a client request ----

  function OnlyTo(m: Msg, f: nat): seq<Msg> {
    if m.dst == f then [m] else []
  }

  // The messages to f, in the order they are sent.
  function SentTo(ms: seq<Msg>, f: nat): seq<Msg> {
    if |ms| == 0 then [] else OnlyTo(ms[0], f) + SentTo(ms[1..], f)
  }

  lemma {:induction false} SentToConcat(a: seq<Msg>, b: seq<Msg>, f: nat)
    ensures SentTo(a + b, f) == SentTo(a, f) + SentTo(b, f)
  {
    var ab := a + b;
    if |a| == 0 {
      assert ab == b;
    } else {
      assert ab[0] == a[0] && ab[1..] == a[1..] + b;
      SentToConcat(a[1..], b, f);
      ConcatAssoc(OnlyTo(a[0], f), SentTo(a[1..], f), SentTo(b, f));
    }
  }

  ghost predicate AllTo(ms: seq<Msg>, d: nat) { forall b :: 0 <= b < |ms| ==> ms[b].dst == d }

  lemma {:induction false} SentToOne(ms: seq<Msg>, d: nat, f: nat)
    requires AllTo(ms, d)
    ensures SentTo(ms, f) == if d == f then ms else []
  {
    if |ms| > 0 {
      SentToOne(ms[1..], d, f);
    }
  }

  lemma {:induction false} SentToFlatten(parts: seq<seq<Msg>>, f: nat)
    requires forall d :: 0 <= d < |parts| ==> AllTo(parts[d], d)
    ensures SentTo(Flatten(parts), f) == if f < |parts| then parts[f] else []
  {
    if |parts| > 0 {
      var k := |parts| - 1;
      var before, own := parts[..k], parts[k];
      assert parts == before + [own];
      SentToFlatten(before, f);
      FlattenAppend(before, own);
      SentToConcat(Flatten(before), own, f);
      SentToOne(own, k, f);
    }
  }

  // Among the proposals to all followers, those to f are the proposals to f.
  lemma SentToFollower(cfg: Config, i: nat, x: NodeState, skip: set<nat>, f: nat)
    requires Sized(cfg, x) && f < cfg.n && ProposalsEnd(cfg, i, x, skip)
    ensures SentTo(ProposalsBelow(cfg, i, x, skip, cfg.n), f) == ProposalsFor(cfg, i, x, skip, f)
  {
    var parts := Parts(cfg, i, x, skip, cfg.n);
    forall d | 0 <= d < |parts| ensures AllTo(parts[d], d) {
      assert parts[d] == ProposalsFor(cfg, i, x, skip, d);
    }
    SentToFlatten(parts, f);
  }

  // The request's entry is appended and everything the follower lacks is sent:
  // feeding it the messages to it gives it the leader's new log.
  lemma RequestCompletes(cfg: Config, i: nat, f: nat, q: Pair, command: string, clientId: int, requestId: int,
                         skip: set<nat>)
    requires Paired(cfg, i, f, q) && NotAhead(q) && f !in skip
    requires Agree(q.leader.log, q.follower.log, q.leader.nextIndex[f] - 1)
    requires ProposalsEnd(cfg, i, Appended(q.leader, command, clientId, requestId), skip)
    ensures var out := OnClientRequest(cfg, i, q.leader, command, clientId, requestId, skip);
            var ms := SentTo(out.sent, f);
            && out.node.log == q.leader.log + [LogEntry(q.leader.term, command, clientId, requestId)]
            && (forall b :: 0 <= b < |ms| ==> ms[b].AppendEntries?)
            && Agree(Feed(f, q.follower, ms).log, out.node.log, |out.node.log|)
  {
    var y := Appended(q.leader, command, clientId, requestId);
    SentToFollower(cfg, i, y, skip, f);
    assert TermsDecide(y.log, q.follower.log) by {
      DecideAppended(q.leader.log, q.follower.log, y.log[|q.leader.log|]);
    }
    PendingCompletes(cfg, i, f, Pair(y, q.follower));
  }

  lemma DecideAppended(a: seq<LogEntry>, b: seq<LogEntry>, e: LogEntry)
    requires TermsDecide(a, b) && (|a| < |b| ==> b[|a|].term != e.term)
    ensures TermsDecide(a + [e], b)
  {
    var c := a + [e];
    forall p | 0 <= p < |c| && p < |b| && c[p].term == b[p].term ensures Agree(c, b, p + 1) {
      assert c[p] == a[p] && Agree(a, b, p + 1);
    }
  }

  lemma SuffixesFit(cfg: Config, i: nat, x: NodeState, skip: set<nat>)
    requires Sized(cfg, x) && AllFit(x.log, cfg.entrySize)
    ensures ProposalsEnd(cfg, i, x, skip)
  {
    forall d | 0 <= d < cfg.n ensures AllFit(Pending(x.log, x.nextIndex[d]), cfg.entrySize) {
      SuffixFits(x.log, x.nextIndex[d], cfg.entrySize);
    }
  }

  // In every reachable state, a leader and a follower that does not run ahead of
  // it are Refusals heartbeat exchanges away from agreement: each of these is
  // refused and leaves both logs alone, and the next is accepted.  The messages
  // of the first client request after that which does not pass f over then make
  // the follower's log begin with the leader's, the new entry included.
  lemma FollowerCatchesUp(cfg: Config, states: seq<State>, events: seq<Event>, a: nat, i: nat, f: nat,
                          command: string, clientId: int, requestId: int, skip: set<nat>)
    requires IsAdmittedRun(cfg, Matches, states, events) && a < |states|
    requires i < cfg.n && f < cfg.n && i != f && f !in skip
    requires states[a].nodes[i].role.Leader? && states[a].nodes[f].term <= states[a].nodes[i].term
    requires AllFit(Appended(states[a].nodes[i], command, clientId, requestId).log, cfg.entrySize)
    ensures var p := Pair(states[a].nodes[i], states[a].nodes[f]);
            var q := Exchanges(cfg, i, f, p, Refusals(f, p));
            && (forall r: nat :: r < Refusals(f, p) ==> Rejects(f, Exchanges(cfg, i, f, p, r)))
            && !Rejects(f, q) && q.leader.log == p.leader.log && q.follower.log == p.follower.log
            && ProposalsEnd(cfg, i, Appended(q.leader, command, clientId, requestId), skip)
            && var out := OnClientRequest(cfg, i, q.leader, command, clientId, requestId, skip);
               var ms := SentTo(out.sent, f);
               && out.node.log == p.leader.log + [LogEntry(p.leader.term, command, clientId, requestId)]
               && (forall b :: 0 <= b < |ms| ==> ms[b].AppendEntries?)
               && Agree(Feed(f, q.follower, ms).log, out.node.log, |out.node.log|)
  {
    ReachablePair(cfg, states, events, a, i, f);
    var p := Pair(states[a].nodes[i], states[a].nodes[f]);
    forall r: nat | r < Refusals(f, p) ensures Rejects(f, Exchanges(cfg, i, f, p, r)) {
      BacktrackRefusals(cfg, i, f, p, r);
    }
    Located(cfg, i, f, p);
    var q := Exchanges(cfg, i, f, p, Refusals(f, p));
    SuffixesFit(cfg, i, Appended(q.leader, command, clientId, requestId), skip);
    RequestCompletes(cfg, i, f, q, command, clientId, requestId, skip);
  }
}
