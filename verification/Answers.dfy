// What clients are told: the replies of the acknowledgement loop, in terms of
// the entries they answer.
module Answers {
  import opened Types
  import opened Handlers
  import opened Cluster
  import opened Invariant
  import opened Safety
  import R = Replica

  // The entry at k is answered: the loop visits it and knows its client.
  predicate Answerable(log: seq<LogEntry>, clients: set<int>, from: nat, upTo: nat, k: nat) {
    from < k <= upTo && 1 <= k <= |log| && log[k - 1].clientId in clients
  }

  // The indices `at` are, in order, those answered, and each reply names the
  // client and the request of its entry.
  ghost predicate AnswersAt(log: seq<LogEntry>, clients: set<int>, from: nat, upTo: nat, replies: seq<R.Reply>,
                            at: seq<nat>)
  {
    && |at| == |replies|
    && (forall j, k :: 0 <= j < k < |at| ==> at[j] < at[k])
    && (forall k :: k in at <==> Answerable(log, clients, from, upTo, k))
    && forall j :: 0 <= j < |at| ==>
         1 <= at[j] <= |log| && replies[j].clientId == log[at[j] - 1].clientId
         && replies[j].requestId == log[at[j] - 1].requestId
  }

  // The loop answers exactly the entries of known clients in its range, once
  // each and in order.
  lemma {:induction false} RepliesAnswer(log: seq<LogEntry>, clients: set<int>, from: nat, upTo: nat)
    returns (at: seq<nat>)
    requires from <= upTo
    ensures AnswersAt(log, clients, from, upTo, R.Replies(log, clients, from, upTo), at)
    decreases upTo
  {
    if from == upTo {
      at := [];
    } else {
      var before := RepliesAnswer(log, clients, from, upTo - 1);
      at := if Answerable(log, clients, from, upTo, upTo) then before + [upTo] else before;
      AnswersNext(log, clients, from, upTo, R.Replies(log, clients, from, upTo - 1), before);
    }
  }

  lemma AnswersNext(log: seq<LogEntry>, clients: set<int>, from: nat, upTo: nat, replies: seq<R.Reply>, at: seq<nat>)
    requires from < upTo && AnswersAt(log, clients, from, upTo - 1, replies, at)
    ensures if Answerable(log, clients, from, upTo, upTo) then
              var e := log[upTo - 1];
              AnswersAt(log, clients, from, upTo, replies + [R.Reply(e.clientId, e.requestId)], at + [upTo])
            else AnswersAt(log, clients, from, upTo, replies, at)
  {
    forall j | 0 <= j < |at| ensures at[j] < upTo {
      assert at[j] in at;
    }
    forall k ensures k in at + [upTo] <==> k in at || k == upTo {
    }
  }

  lemma AnsweredEntry(log: seq<LogEntry>, clients: set<int>, from: nat, upTo: nat, r: R.Reply) returns (k: nat)
    requires from <= upTo && r in R.Replies(log, clients, from, upTo)
    ensures from < k <= upTo && k <= |log| && r == R.Reply(log[k - 1].clientId, log[k - 1].requestId)
  {
    var at := RepliesAnswer(log, clients, from, upTo);
    var q :| 0 <= q < |at| && R.Replies(log, clients, from, upTo)[q] == r;
    k := at[q];
    assert k in at;
  }

  // The replies that event a sends.
  ghost function RepliesAt(cfg: Config, states: seq<State>, events: seq<Event>, a: nat): seq<R.Reply>
    requires IsRun(cfg, states, events) && a < |events|
  {
    assert StepAt(cfg, states, events, a);
    var x, y := states[a].nodes[Actor(events[a])], states[a + 1].nodes[Actor(events[a])];
    if events[a].Deliver? && events[a].m.AppendResponse? then
      R.Replies(y.log, y.clients, x.commitIndex, y.commitIndex)
    else []
  }

  // What a client is told is durable: the entry with the client id and request id
  // of a reply is at the same index in the log of every leader of every later term.
  lemma ReplyIsDurable(cfg: Config, states: seq<State>, events: seq<Event>, a: nat, r: R.Reply, b: nat, j: nat)
    returns (k: nat)
    requires IsAdmittedRun(cfg, Commits, states, events) && a < |events| && StepAt(cfg, states, events, a)
    requires r in RepliesAt(cfg, states, events, a)
    requires b < |states| && j < cfg.n && states[b].nodes[j].role.Leader?
    requires states[a + 1].nodes[Actor(events[a])].term < states[b].nodes[j].term
    ensures var mine, theirs := states[a + 1].nodes[Actor(events[a])].log, states[b].nodes[j].log;
            && 1 <= k <= |mine| && k <= |theirs| && theirs[k - 1] == mine[k - 1]
            && theirs[k - 1].clientId == r.clientId && theirs[k - 1].requestId == r.requestId
  {
    assert StepAt(cfg, states, events, a);
    var x, y := states[a].nodes[Actor(events[a])], states[a + 1].nodes[Actor(events[a])];
    k := AnsweredEntry(y.log, y.clients, x.commitIndex, y.commitIndex, r);
    assert k in Handle(cfg, states[a], events[a]).acked by {
      assert k == Range(x.commitIndex, y.commitIndex)[k - x.commitIndex - 1];
    }
    AcknowledgedIsDurable(cfg, states, events, a, k, b, j);
  }

  // A leader knows the client of every entry of its own term.
  ghost predicate ClientsKnown(x: NodeState) {
    x.role.Leader? ==> forall k :: 0 <= k < |x.log| && x.log[k].term == x.term ==> x.log[k].clientId in x.clients
  }

  lemma ClientsKnownStep(cfg: Config, s: State, e: Event, i: nat)
    requires Enabled(cfg, s, e) && TaskIsFresh(s, e) && i < cfg.n && NodeLog(cfg, s, i) && ClientsKnown(s.nodes[i])
    ensures ClientsKnown(Step(cfg, s, e).nodes[i])
  {
    if i == Actor(e) && (e.Deliver? || e.Timeout?) {
      var x, y := s.nodes[i], Handle(cfg, s, e).node;
      assert y.role.Leader? ==> x.role.Leader? && y.term == x.term && y.log == x.log && y.clients == x.clients;
    }
  }

  lemma {:induction false} ClientsKnownInRun(cfg: Config, states: seq<State>, events: seq<Event>, a: nat, i: nat)
    requires IsAdmittedRun(cfg, Logs, states, events) && a < |states| && i < cfg.n
    ensures ClientsKnown(states[a].nodes[i])
  {
    if a > 0 {
      ClientsKnownInRun(cfg, states, events, a - 1, i);
      RunInv(cfg, Logs, states, events, a - 1);
      assert StepAt(cfg, states, events, a - 1);
      assert NodeLog(cfg, states[a - 1], i) by { assert PartOk(cfg, Logs, states[a - 1], NodePart(i)); }
      ClientsKnownStep(cfg, states[a - 1], events[a - 1], i);
    }
  }

  // Every entry of its own term that a leader commits is answered to its client.
  lemma OwnEntryAnswered(cfg: Config, states: seq<State>, events: seq<Event>, a: nat, k: nat)
    requires IsAdmittedRun(cfg, Logs, states, events) && a < |events| && StepAt(cfg, states, events, a)
    requires k in Handle(cfg, states[a], events[a]).acked
    requires var y := states[a + 1].nodes[Actor(events[a])]; 1 <= k <= |y.log| && y.log[k - 1].term == y.term
    ensures var e := states[a + 1].nodes[Actor(events[a])].log[k - 1];
            R.Reply(e.clientId, e.requestId) in RepliesAt(cfg, states, events, a)
  {
    var i := Actor(events[a]);
    var x, y := states[a].nodes[i], states[a + 1].nodes[i];
    ClientsKnownInRun(cfg, states, events, a + 1, i);
    var at := RepliesAnswer(y.log, y.clients, x.commitIndex, y.commitIndex);
    assert Answerable(y.log, y.clients, x.commitIndex, y.commitIndex, k);
    var q :| 0 <= q < |at| && at[q] == k;
    var replies := RepliesAt(cfg, states, events, a);
    assert replies[q] == R.Reply(y.log[k - 1].clientId, y.log[k - 1].requestId);
  }
}
