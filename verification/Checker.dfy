// The offline check of scripts/verify_consistency.py over the log dumps of all
// nodes, and what its verdict means for a cluster.
module Checker {
  import opened Types
  import opened Cluster
  import opened Completeness
  import opened Safety

  // What a dump says at an index: (term, command), or missing.
  type Dump = map<nat, (nat, string)>
  type Opinion = Option<(nat, string)>

  function OpinionAt(dump: Dump, index: nat): Opinion {
    if index in dump then Some(dump[index]) else None
  }

  // QUORUM
  function Majority(n: nat): nat { n / 2 + 1 }

  function Agreeing(dumps: seq<Dump>, index: nat, v: Opinion): set<nat> {
    set j: nat | j < |dumps| && OpinionAt(dumps[j], index) == v
  }

  ghost predicate HasQuorum(dumps: seq<Dump>, index: nat, v: Opinion) {
    |Agreeing(dumps, index, v)| >= Majority(|dumps|)
  }

  ghost predicate Mentioned(dumps: seq<Dump>, index: nat) {
    exists j :: 0 <= j < |dumps| && index in dumps[j]
  }

  // The counter holds, for each opinion at the index, the number of dumps with it, and no other opinion.
  ghost predicate Counts(dumps: seq<Dump>, index: nat, counter: map<Opinion, nat>) {
    forall v :: CountIs(dumps, index, counter, v)
  }

  ghost predicate CountIs(dumps: seq<Dump>, index: nat, counter: map<Opinion, nat>, v: Opinion) {
    && (v in counter <==> Agreeing(dumps, index, v) != {})
    && (v in counter ==> counter[v] == |Agreeing(dumps, index, v)|)
  }

  // The Counter over all dumps at one index.
  method CountOpinions(dumps: seq<Dump>, index: nat) returns (counter: map<Opinion, nat>)
    ensures Counts(dumps, index, counter)
  {
    counter := map[];
    var j := 0;
    while j < |dumps|
      invariant 0 <= j <= |dumps|
      invariant Counts(dumps[..j], index, counter)
    {
      var v := OpinionAt(dumps[j], index);
      CountOneMore(dumps, index, j, counter);
      counter := counter[v := (if v in counter then counter[v] else 0) + 1];
      j := j + 1;
    }
    assert dumps[..j] == dumps;
  }

  lemma CountOneMore(dumps: seq<Dump>, index: nat, j: nat, counter: map<Opinion, nat>)
    requires j < |dumps| && Counts(dumps[..j], index, counter)
    ensures var v := OpinionAt(dumps[j], index);
            Counts(dumps[..j + 1], index, counter[v := (if v in counter then counter[v] else 0) + 1])
  {
    var v := OpinionAt(dumps[j], index);
    var counter' := counter[v := (if v in counter then counter[v] else 0) + 1];
    var seen := dumps[..j + 1];
    forall w ensures CountIs(seen, index, counter', w) {
      assert CountIs(dumps[..j], index, counter, w);
      AgreeingGrows(dumps, index, j, w);
    }
  }

  lemma AgreeingGrows(dumps: seq<Dump>, index: nat, j: nat, v: Opinion)
    requires j < |dumps|
    ensures Agreeing(dumps[..j + 1], index, v)
            == Agreeing(dumps[..j], index, v) + if v == OpinionAt(dumps[j], index) then {j} else {}
    ensures j !in Agreeing(dumps[..j], index, v)
  {
    assert forall i :: 0 <= i < j ==> dumps[..j + 1][i] == dumps[..j][i];
  }

  // counter.most_common(1)[0]
  method MostCommon(counter: map<Opinion, nat>) returns (value: Opinion, votes: nat)
    requires counter != map[]
    ensures value in counter && votes == counter[value]
    ensures forall v :: v in counter ==> counter[v] <= votes
  {
    var todo := counter.Keys;
    value :| value in todo;
    votes := counter[value];
    todo := todo - {value};
    while todo != {}
      invariant todo <= counter.Keys && value in counter && votes == counter[value]
      invariant forall v :: v in counter && v !in todo ==> counter[v] <= votes
      decreases todo
    {
      var v :| v in todo;
      if counter[v] > votes {
        value, votes := v, counter[v];
      }
      todo := todo - {v};
    }
  }

  method AllIndices(dumps: seq<Dump>) returns (indices: set<nat>)
    ensures forall k :: k in indices <==> Mentioned(dumps, k)
  {
    indices := {};
    var j := 0;
    while j < |dumps|
      invariant 0 <= j <= |dumps|
      invariant forall k :: k in indices <==> exists i :: 0 <= i < j && k in dumps[i]
    {
      indices := indices + dumps[j].Keys;
      j := j + 1;
    }
  }

  // majority_consistent: true exactly when at every index some opinion is held by a majority of the dumps.
  method MajorityConsistent(dumps: seq<Dump>) returns (ok: bool)
    ensures ok <==> forall k :: Mentioned(dumps, k) ==> exists v :: HasQuorum(dumps, k, v)
  {
    var todo := AllIndices(dumps);
    ghost var all := todo;
    ok := true;
    while todo != {}
      invariant todo <= all
      invariant ok <==> forall k :: k in all && k !in todo ==> exists v :: HasQuorum(dumps, k, v)
      decreases todo
    {
      var k :| k in todo;
      var counter := CountOpinions(dumps, k);
      assert counter != map[] by {
        var j :| 0 <= j < |dumps| && k in dumps[j];
        assert j in Agreeing(dumps, k, OpinionAt(dumps[j], k));
        assert CountIs(dumps, k, counter, OpinionAt(dumps[j], k));
      }
      var value, votes := MostCommon(counter);
      assert CountIs(dumps, k, counter, value);
      if votes >= Majority(|dumps|) {
        assert HasQuorum(dumps, k, value);
      } else {
        NoQuorum(dumps, k, counter, votes);
        ok := false;
      }
      todo := todo - {k};
    }
  }

  lemma NoQuorum(dumps: seq<Dump>, k: nat, counter: map<Opinion, nat>, votes: nat)
    requires Counts(dumps, k, counter) && forall v :: v in counter ==> counter[v] <= votes
    requires votes < Majority(|dumps|)
    ensures !exists v :: HasQuorum(dumps, k, v)
  {
    forall v ensures !HasQuorum(dumps, k, v) {
      assert CountIs(dumps, k, counter, v);
    }
  }

  // At most one opinion reaches the quorum.
  lemma QuorumOpinionUnique(dumps: seq<Dump>, k: nat, v: Opinion, w: Opinion)
    requires HasQuorum(dumps, k, v) && HasQuorum(dumps, k, w)
    ensures v == w
  {
    var j := QuorumsMeet(|dumps|, Agreeing(dumps, k, v), Agreeing(dumps, k, w));
  }

  // ---- the dumps of a cluster ----

  // dumpRaftLogToFile, as the script reads it back
  function DumpOf(log: seq<LogEntry>): Dump {
    map k: nat | 1 <= k <= |log| :: Line(log, k)
  }

  function Line(log: seq<LogEntry>, k: nat): (nat, string)
    requires 1 <= k <= |log|
  {
    (log[k - 1].term, log[k - 1].command)
  }

  function DumpsOf(s: State): seq<Dump> {
    seq(|s.nodes|, j requires 0 <= j < |s.nodes| => DumpOf(s.nodes[j].log))
  }

  // At an index some node considers committed no other opinion than the
  // committed entry can have a quorum, and the script misses that quorum
  // exactly when the number of nodes is even and half of them hold the entry:
  // updated_commit_index is content with half.
  lemma CheckerSeesCommitted(cfg: Config, states: seq<State>, events: seq<Event>, a: nat, i: nat, k: nat, v: Opinion)
    requires IsAdmittedRun(cfg, Commits, states, events) && a < |states|
    requires i < cfg.n && 1 <= k <= states[a].nodes[i].commitIndex
    ensures k <= |states[a].nodes[i].log|
    ensures var dumps, w := DumpsOf(states[a]), OpinionAt(DumpOf(states[a].nodes[i].log), k);
            && (HasQuorum(dumps, k, v) ==> v == w)
            && (HasQuorum(dumps, k, w) <==> cfg.n % 2 == 1 || |Agreeing(dumps, k, w)| != cfg.n / 2)
  {
    var s, dumps := states[a], DumpsOf(states[a]);
    var log := s.nodes[i].log;
    StateMachineSafety(cfg, states, events, a, i, a, i);
    CommittedOnQuorum(cfg, states, events, a, i, k);
    var w := OpinionAt(DumpOf(log), k);
    var holders, agreeing := Holders(s, log, k), Agreeing(dumps, k, w);
    forall y | y in holders ensures y in agreeing {
      assert s.nodes[y].log[k - 1] == log[k - 1];
    }
    SubsetSize(holders, agreeing);
    if HasQuorum(dumps, k, v) {
      var y := QuorumsMeet(|dumps|, Agreeing(dumps, k, v), agreeing);
    }
  }
}
