// The MTU batching of send_proposals_to_followers in src/node.cpp: cached
// entries are streamed out in messages of at most 1400 bytes, of which 64 are
// set aside for the header.
module Batcher {
  const MTU: nat := 1400
  const HEADER_SLACK: nat := 64

  ghost predicate AllFit<T>(entries: seq<T>, size: T -> nat) {
    forall p :: 0 <= p < |entries| ==> 64 + size(entries[p]) <= 1400
  }

  // How many leading entries the inner loop takes when `used` bytes are taken already.
  function Fill<T>(entries: seq<T>, size: T -> nat, used: nat): (k: nat)
    ensures k <= |entries|
  {
    if |entries| == 0 || used + size(entries[0]) > MTU then 0
    else 1 + Fill(entries[1..], size, used + size(entries[0]))
  }

  function TotalSize<T>(entries: seq<T>, size: T -> nat): nat {
    if |entries| == 0 then 0 else size(entries[0]) + TotalSize(entries[1..], size)
  }

  function Flatten<T>(batches: seq<seq<T>>): seq<T> {
    if |batches| == 0 then [] else batches[0] + Flatten(batches[1..])
  }

  function Batches<T>(entries: seq<T>, size: T -> nat): (b: seq<seq<T>>)
    requires AllFit(entries, size)
    decreases |entries|
  {
    if |entries| == 0 then []
    else
      var k := Fill(entries, size, HEADER_SLACK);
      [entries[..k]] + Batches(entries[k..], size)
  }

  // Any way to send `entries` in order in messages that respect the limit.
  ghost predicate IsSplit<T>(batches: seq<seq<T>>, entries: seq<T>, size: T -> nat) {
    && Flatten(batches) == entries
    && forall b :: 0 <= b < |batches| ==> 64 + TotalSize(batches[b], size) <= 1400
  }

  // Fill takes the longest prefix that fits.
  lemma {:induction false} FillIsLongest<T>(entries: seq<T>, size: T -> nat, used: nat, j: nat)
    requires j <= |entries| && used <= 1400
    ensures used + TotalSize(entries[..j], size) <= 1400 <==> j <= Fill(entries, size, used)
  {
    if j > 0 {
      assert entries[..j][0] == entries[0];
      assert entries[..j][1..] == entries[1..][..j - 1];
      if used + size(entries[0]) <= MTU {
        FillIsLongest(entries[1..], size, used + size(entries[0]), j - 1);
      }
    }
  }

  // The greedy batches are a split into non-empty messages.
  lemma {:induction false} BatchesSplit<T>(entries: seq<T>, size: T -> nat)
    requires AllFit(entries, size)
    ensures IsSplit(Batches(entries, size), entries, size)
    ensures forall b :: 0 <= b < |Batches(entries, size)| ==> Batches(entries, size)[b] != []
    decreases |entries|
  {
    if |entries| > 0 {
      var k := Fill(entries, size, HEADER_SLACK);
      FillIsLongest(entries, size, HEADER_SLACK, k);
      BatchesSplit(entries[k..], size);
      assert entries == entries[..k] + entries[k..];
    }
  }

  // A message opened later reaches at least as far.
  lemma SuffixFillsAsFar<T>(entries: seq<T>, size: T -> nat, j: nat)
    requires j < Fill(entries, size, HEADER_SLACK)
    ensures Fill(entries, size, HEADER_SLACK) <= j + Fill(entries[j..], size, HEADER_SLACK)
  {
    var k := Fill(entries, size, HEADER_SLACK);
    FillIsLongest(entries, size, HEADER_SLACK, k);
    TotalSizeDrop(entries[..k], size, j);
    assert entries[..k][j..] == entries[j..][..k - j];
    FillIsLongest(entries[j..], size, HEADER_SLACK, k - j);
  }

  lemma DropAgain<T>(entries: seq<T>, j: nat, k: nat)
    requires j <= k <= |entries|
    ensures entries[j..][k - j..] == entries[k..] && entries[j..][..k - j] == entries[j..k]
  {
  }

  lemma FirstBatch<T>(entries: seq<T>, size: T -> nat)
    requires AllFit(entries, size) && |entries| > 0
    ensures var k := Fill(entries, size, HEADER_SLACK);
            && 0 < k <= |entries| && AllFit(entries[k..], size)
            && Batches(entries, size) == [entries[..k]] + Batches(entries[k..], size)
  {
  }

  lemma BatchesStep<T>(cached: seq<T>, size: T -> nat, cursor: nat, next: nat)
    requires AllFit(cached, size) && cursor < |cached|
    requires next == cursor + Fill(cached[cursor..], size, HEADER_SLACK)
    ensures cursor < next <= |cached|
    ensures Batches(cached[cursor..], size) == [cached[cursor..next]] + Batches(cached[next..], size)
  {
    var rest := cached[cursor..];
    FirstBatch(rest, size);
    DropAgain(cached, cursor, next);
  }

  lemma {:induction false} TotalSizeDrop<T>(entries: seq<T>, size: T -> nat, j: nat)
    requires j <= |entries|
    ensures TotalSize(entries[j..], size) <= TotalSize(entries, size)
  {
    if j > 0 {
      TotalSizeDrop(entries[1..], size, j - 1);
      assert entries[1..][j - 1..] == entries[j..];
    }
  }

  // Where the message opened at p ends.
  function NextStart<T>(entries: seq<T>, size: T -> nat, p: nat): (q: nat)
    requires AllFit(entries, size) && p <= |entries|
    ensures p <= q <= |entries| && (p < |entries| ==> p < q)
  {
    p + Fill(entries[p..], size, HEADER_SLACK)
  }

  // How many messages are sent from p on.
  function CountFrom<T>(entries: seq<T>, size: T -> nat, p: nat): nat
    requires AllFit(entries, size) && p <= |entries|
    decreases |entries| - p
  {
    if p == |entries| then 0 else 1 + CountFrom(entries, size, NextStart(entries, size, p))
  }

  lemma {:induction false} CountIsBatches<T>(entries: seq<T>, size: T -> nat, p: nat)
    requires AllFit(entries, size) && p <= |entries|
    ensures AllFit(entries[p..], size) && CountFrom(entries, size, p) == |Batches(entries[p..], size)|
    decreases |entries| - p
  {
    if p < |entries| {
      var q := NextStart(entries, size, p);
      BatchesStep(entries, size, p, q);
      CountIsBatches(entries, size, q);
    }
  }

  lemma NextStartGrows<T>(entries: seq<T>, size: T -> nat, j: nat, k: nat)
    requires AllFit(entries, size) && j <= k <= |entries|
    ensures NextStart(entries, size, j) <= NextStart(entries, size, k)
  {
    if k < NextStart(entries, size, j) {
      SuffixFillsAsFar(entries[j..], size, k - j);
      DropAgain(entries, j, k);
    }
  }

  // A later start never needs more messages.
  lemma {:induction false} LaterStartNeedsNoMore<T>(entries: seq<T>, size: T -> nat, j: nat, k: nat)
    requires AllFit(entries, size) && j <= k <= |entries|
    ensures CountFrom(entries, size, k) <= CountFrom(entries, size, j)
    decreases |entries| - j
  {
    if k < |entries| {
      NextStartGrows(entries, size, j, k);
      LaterStartNeedsNoMore(entries, size, NextStart(entries, size, j), NextStart(entries, size, k));
    }
  }

  // No order-preserving split uses fewer messages.
  lemma {:induction false} FewestMessages<T>(entries: seq<T>, size: T -> nat, other: seq<seq<T>>)
    requires AllFit(entries, size) && IsSplit(other, entries, size)
    ensures |Batches(entries, size)| <= |other|
    decreases |other|
  {
    if |entries| > 0 {
      var first, tail := other[0], other[1..];
      var j := |first|;
      assert entries[..j] == first && entries[j..] == Flatten(tail);
      FillIsLongest(entries, size, HEADER_SLACK, j);
      FewestMessages(entries[j..], size, tail);
      var k := Fill(entries, size, HEADER_SLACK);
      FirstBatch(entries, size);
      LaterStartNeedsNoMore(entries, size, j, k);
      CountIsBatches(entries, size, j);
      CountIsBatches(entries, size, k);
    }
  }

  // The cursor after `rounds` turns of the outer loop.
  ghost function Cursor<T>(entries: seq<T>, size: T -> nat, rounds: nat): (c: nat)
    ensures c <= |entries|
  {
    if rounds == 0 then 0
    else
      var c := Cursor(entries, size, rounds - 1);
      c + Fill(entries[c..], size, HEADER_SLACK)
  }

  // The outer loop ends exactly when every encoded entry fits a message alone;
  // otherwise it sends empty messages for ever.
  lemma {:induction false} StreamEndsIff<T>(entries: seq<T>, size: T -> nat)
    ensures (exists rounds: nat :: Cursor(entries, size, rounds) == |entries|) <==> AllFit(entries, size)
  {
    if AllFit(entries, size) {
      CursorAdvances(entries, size, |entries|);
    } else {
      var p :| 0 <= p < |entries| && HEADER_SLACK + size(entries[p]) > MTU;
      forall rounds: nat ensures Cursor(entries, size, rounds) <= p {
        CursorStuck(entries, size, p, rounds);
      }
    }
  }

  lemma {:induction false} CursorAdvances<T>(entries: seq<T>, size: T -> nat, rounds: nat)
    requires AllFit(entries, size)
    ensures Cursor(entries, size, rounds) >= rounds || Cursor(entries, size, rounds) == |entries|
  {
    if rounds > 0 {
      CursorAdvances(entries, size, rounds - 1);
    }
  }

  lemma {:induction false} CursorStuck<T>(entries: seq<T>, size: T -> nat, p: nat, rounds: nat)
    requires p < |entries| && HEADER_SLACK + size(entries[p]) > MTU
    ensures Cursor(entries, size, rounds) <= p
  {
    if rounds > 0 {
      CursorStuck(entries, size, p, rounds - 1);
      var c := Cursor(entries, size, rounds - 1);
      FillStopsAt(entries[c..], size, HEADER_SLACK, p - c);
    }
  }

  lemma {:induction false} FillStopsAt<T>(entries: seq<T>, size: T -> nat, used: nat, p: nat)
    requires p < |entries| && HEADER_SLACK + size(entries[p]) > MTU && used >= HEADER_SLACK
    ensures Fill(entries, size, used) <= p
  {
    if p > 0 && used + size(entries[0]) <= MTU {
      FillStopsAt(entries[1..], size, used + size(entries[0]), p - 1);
    }
  }

  // Where each message starts in the stream.
  function Starts<T>(batches: seq<seq<T>>, from: nat): (r: seq<nat>)
    ensures |r| == |batches|
  {
    if |batches| == 0 then [] else [from] + Starts(batches[1..], from + |batches[0]|)
  }

  lemma {:induction false} StartsBound<T>(batches: seq<seq<T>>, from: nat, b: nat)
    requires b < |batches|
    ensures from <= Starts(batches, from)[b]
    ensures Starts(batches, from)[b] - from + |batches[b]| <= |Flatten(batches)|
  {
    var first, rest := batches[0], batches[1..];
    assert |Flatten(batches)| == |first| + |Flatten(rest)|;
    if b > 0 {
      var next := from + |first|;
      assert Starts(batches, from)[b] == Starts(rest, next)[b - 1] && rest[b - 1] == batches[b];
      StartsBound(rest, next, b - 1);
    }
  }

  lemma {:induction false} StartsLocateAt<T>(batches: seq<seq<T>>, from: nat, b: nat, p: nat, at: nat)
    requires b < |batches| && p < |batches[b]| && at == Starts(batches, from)[b] - from + p
    ensures at < |Flatten(batches)| && Flatten(batches)[at] == batches[b][p]
  {
    var first, rest := batches[0], batches[1..];
    if b > 0 {
      var next := from + |first|;
      assert Starts(batches, from)[b] == Starts(rest, next)[b - 1] && rest[b - 1] == batches[b];
      StartsBound(rest, next, b - 1);
      StartsLocateAt(rest, next, b - 1, p, at - |first|);
      assert (first + Flatten(rest))[at] == Flatten(rest)[at - |first|];
    }
  }

  // Each message holds the entries of the stream from its recorded start on.
  lemma StartsLocate<T>(batches: seq<seq<T>>, from: nat, b: nat)
    requires b < |batches|
    ensures from <= Starts(batches, from)[b]
    ensures Starts(batches, from)[b] - from + |batches[b]| <= |Flatten(batches)|
    ensures forall p :: 0 <= p < |batches[b]| ==> Flatten(batches)[Starts(batches, from)[b] - from + p] == batches[b][p]
  {
    StartsBound(batches, from, b);
    forall p | 0 <= p < |batches[b]| ensures Flatten(batches)[Starts(batches, from)[b] - from + p] == batches[b][p] {
      StartsLocateAt(batches, from, b, p, Starts(batches, from)[b] - from + p);
    }
  }

  lemma ConcatAssoc<T>(a: seq<T>, b: seq<T>, c: seq<T>)
    ensures (a + b) + c == a + (b + c)
  {
  }

  lemma {:induction false} FlattenAppend<T>(batches: seq<seq<T>>, last: seq<T>)
    ensures Flatten(batches + [last]) == Flatten(batches) + last
  {
    var all := batches + [last];
    if |batches| == 0 {
      assert all[1..] == [];
    } else {
      var first, rest := batches[0], batches[1..];
      assert all[0] == first && all[1..] == rest + [last];
      FlattenAppend(rest, last);
      ConcatAssoc(first, Flatten(rest), last);
    }
  }

  // The elements of the flattened sequence are those of its parts.
  lemma {:induction false} FlattenHas<T>(parts: seq<seq<T>>, d: nat, b: nat) returns (q: nat)
    requires d < |parts| && b < |parts[d]|
    ensures q < |Flatten(parts)| && Flatten(parts)[q] == parts[d][b]
  {
    if d == 0 {
      q := b;
    } else {
      q := FlattenHas(parts[1..], d - 1, b);
      q := |parts[0]| + q;
    }
  }

  lemma {:induction false} FlattenFrom<T>(parts: seq<seq<T>>, q: nat) returns (d: nat, b: nat)
    requires q < |Flatten(parts)|
    ensures d < |parts| && b < |parts[d]| && Flatten(parts)[q] == parts[d][b]
  {
    if q < |parts[0]| {
      d, b := 0, q;
    } else {
      d, b := FlattenFrom(parts[1..], q - |parts[0]|);
      d := d + 1;
    }
  }

  lemma TailOfAppend<T>(s: seq<T>, last: T)
    requires |s| > 0
    ensures (s + [last])[0] == s[0] && (s + [last])[1..] == s[1..] + [last]
  {
  }

  lemma {:induction false} StartsAppendAt<T>(batches: seq<seq<T>>, last: seq<T>, from: nat, b: nat)
    requires b <= |batches|
    ensures Starts(batches + [last], from)[b]
            == if b < |batches| then Starts(batches, from)[b] else from + |Flatten(batches)|
    decreases b
  {
    if b > 0 {
      TailOfAppend(batches, last);
      StartsAppendAt(batches[1..], last, from + |batches[0]|, b - 1);
    }
  }

  lemma StartsAppend<T>(batches: seq<seq<T>>, last: seq<T>, from: nat)
    ensures Starts(batches + [last], from) == Starts(batches, from) + [from + |Flatten(batches)|]
  {
    var more := Starts(batches + [last], from);
    forall b | 0 <= b < |more| ensures more[b] == (Starts(batches, from) + [from + |Flatten(batches)|])[b] {
      StartsAppendAt(batches, last, from, b);
    }
  }

  // The inner loop: fill one message from `first` on.
  method FillMessage<T>(cached: seq<T>, size: T -> nat, first: nat) returns (message: seq<T>, cursor: nat)
    requires first <= |cached|
    ensures cursor == first + Fill(cached[first..], size, HEADER_SLACK) <= |cached|
    ensures message == cached[first..cursor]
  {
    cursor, message := first, [];
    var payload: nat := HEADER_SLACK;
    while cursor < |cached|
      invariant first <= cursor <= |cached|
      invariant message == cached[first..cursor]
      invariant Fill(cached[first..], size, HEADER_SLACK) == cursor - first + Fill(cached[cursor..], size, payload)
    {
      var need := size(cached[cursor]);
      if payload + need > MTU {
        break;
      }
      message := message + [cached[cursor]];
      payload := payload + need;
      assert cached[cursor..][1..] == cached[cursor + 1..];
      cursor := cursor + 1;
    }
  }

  // `batches` are the messages for everything before `cursor`, `firsts` their starts.
  ghost predicate SentBefore<T>(cached: seq<T>, size: T -> nat, batches: seq<seq<T>>, firsts: seq<nat>, cursor: nat)
    requires AllFit(cached, size)
  {
    && cursor <= |cached| && cursor == |Flatten(batches)| && firsts == Starts(batches, 0)
    && Batches(cached, size) == batches + Batches(cached[cursor..], size)
  }

  lemma SendNext<T>(cached: seq<T>, size: T -> nat, batches: seq<seq<T>>, firsts: seq<nat>, cursor: nat, next: nat)
    requires AllFit(cached, size) && SentBefore(cached, size, batches, firsts, cursor) && cursor < |cached|
    requires next == cursor + Fill(cached[cursor..], size, HEADER_SLACK)
    ensures cursor < next <= |cached|
    ensures SentBefore(cached, size, batches + [cached[cursor..next]], firsts + [cursor], next)
  {
    BatchesStep(cached, size, cursor, next);
    var message, after := cached[cursor..next], Batches(cached[next..], size);
    ConcatAssoc(batches, [message], after);
    FlattenAppend(batches, message);
    StartsAppend(batches, message, 0);
  }

  // The outer loop: one message per turn, opened at `cursor`.
  method Stream<T>(cached: seq<T>, size: T -> nat) returns (batches: seq<seq<T>>, firsts: seq<nat>)
    requires AllFit(cached, size)
    ensures batches == Batches(cached, size)
    ensures firsts == Starts(batches, 0)
  {
    batches, firsts := [], [];
    var cursor := 0;
    assert cached[0..] == cached;
    while cursor < |cached|
      invariant 0 <= cursor <= |cached| && SentBefore(cached, size, batches, firsts, cursor)
    {
      var message, next := FillMessage(cached, size, cursor);
      SendNext(cached, size, batches, firsts, cursor, next);
      batches, firsts, cursor := batches + [message], firsts + [cursor], next;
    }
  }
}
