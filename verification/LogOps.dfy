// The 1-based log of src/raftLog.cpp as a value, and the follower's
// truncate-or-append loop of handle_append_entries as one splice.
module LogOps {
  import opened Types

  function LastTerm(log: seq<LogEntry>): nat {
    if |log| == 0 then 0 else log[|log| - 1].term
  }

  function GetEntry(log: seq<LogEntry>, index: int): (r: Option<LogEntry>)
    ensures r.Some? <==> 1 <= index <= |log|
  {
    if 1 <= index <= |log| then Some(log[index - 1]) else None
  }

  predicate ContainsEntry(log: seq<LogEntry>, index: int, term: nat) {
    index == 0 || (1 <= index <= |log| && log[index - 1].term == term)
  }

  // prev_term as the senders compute it: 0 when there is no such entry
  function TermAt(log: seq<LogEntry>, index: int): nat {
    if 1 <= index <= |log| then log[index - 1].term else 0
  }

  // The two logs hold the same entries at indices 1..k.
  ghost predicate Agree(a: seq<LogEntry>, b: seq<LogEntry>, k: nat) {
    k <= |a| && k <= |b| && forall p :: 0 <= p < k ==> a[p] == b[p]
  }

  // Reading after appending: the new entry is the last one, contained with its
  // own term only, and everything before it reads as it did.
  lemma AppendThenRead(log: seq<LogEntry>, e: LogEntry, index: int, term: nat)
    ensures LastTerm(log + [e]) == e.term
    ensures GetEntry(log + [e], index) == if index == |log| + 1 then Some(e) else GetEntry(log, index)
    ensures ContainsEntry(log + [e], index, term)
            <==> if index == |log| + 1 then term == e.term else ContainsEntry(log, index, term)
  {
  }

  // How many leading entries are already in `log` after index `at`, judging by term alone.
  function Settled(log: seq<LogEntry>, at: nat, entries: seq<LogEntry>): (k: nat)
    ensures k <= |entries|
    ensures at + k <= |log| || k == 0
    ensures forall p :: 0 <= p < k ==> log[at + p].term == entries[p].term
    ensures k < |entries| ==> at + k >= |log| || log[at + k].term != entries[k].term
    decreases |entries|
  {
    if |entries| == 0 || at >= |log| || log[at].term != entries[0].term then 0
    else
      var r := Settled(log, at + 1, entries[1..]);
      assert forall p :: 1 <= p < 1 + r ==> entries[p] == entries[1..][p - 1];
      1 + r
  }

  // Keep the log if every entry is already there, else cut at the first
  // conflicting term and splice in the rest.
  function Splice(log: seq<LogEntry>, prev: nat, entries: seq<LogEntry>): seq<LogEntry>
    requires prev <= |log|
  {
    var k := Settled(log, prev, entries);
    if k == |entries| then log else log[..prev + k] + entries[k..]
  }

  // Same term at an index forces agreement up to that index.
  ghost predicate TermsDecide(a: seq<LogEntry>, b: seq<LogEntry>) {
    forall p :: 0 <= p < |a| && p < |b| && a[p].term == b[p].term ==> Agree(a, b, p + 1)
  }

  // Where terms decide, the term at one index stands for the whole prefix: a log
  // contains the other's entry there if and only if they agree through it.
  lemma ContainsIffAgree(log: seq<LogEntry>, other: seq<LogEntry>, index: nat)
    requires TermsDecide(log, other) && index <= |other|
    ensures ContainsEntry(log, index, TermAt(other, index)) <==> Agree(log, other, index)
  {
    if ContainsEntry(log, index, TermAt(other, index)) && index > 0 {
      assert Agree(log, other, (index - 1) + 1);
    }
  }

  ghost predicate IsSlice(entries: seq<LogEntry>, source: seq<LogEntry>, prev: nat) {
    prev + |entries| <= |source| && forall p :: 0 <= p < |entries| ==> entries[p] == source[prev + p]
  }

  // Splicing a slice of `source` either changes nothing, the slice being there
  // already, or leaves exactly the source's log through the end of the slice;
  // an entry that agrees with the source is never removed.
  lemma SpliceOutcome(log: seq<LogEntry>, prev: nat, entries: seq<LogEntry>, source: seq<LogEntry>)
    requires prev <= |log| && Agree(log, source, prev) && IsSlice(entries, source, prev)
    requires TermsDecide(log, source)
    ensures var r := Splice(log, prev, entries);
            && Agree(r, source, prev + |entries|)
            && (r == log || r == source[..prev + |entries|])
            && forall idx: nat :: Agree(log, source, idx) ==> Agree(r, source, idx)
  {
    var k := Settled(log, prev, entries);
    var r := Splice(log, prev, entries);
    if k > 0 {
      assert entries[k - 1] == source[prev + (k - 1)];
      assert Agree(log, source, prev + k);
    }
    if k < |entries| {
      assert r == source[..prev + |entries|];
      assert prev + k >= |log| || log[prev + k] != source[prev + k] by {
        assert entries[k] == source[prev + k];
      }
    }
  }
}
