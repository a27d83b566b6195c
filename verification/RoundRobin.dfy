// The dequeuing loops of workerThreadFunc and senderThreadFunc in src/node.cpp:
// one pass over the queues per turn, starting where the last pass stopped.
module RoundRobin {
  // Cyclic distance from one queue to another.
  function Distance(n: nat, from: nat, to: nat): nat
    requires from < n && to < n
  {
    if to >= from then to - from else to + n - from
  }

  function Wrap(n: nat, q: nat): nat
    requires q < n
  {
    if q + 1 == n then 0 else q + 1
  }

  lemma WrapIsMod(n: nat, q: nat)
    requires q < n
    ensures (q + 1) % n == Wrap(n, q)
  {
    if q + 1 < n {
      assert (q + 1) % n == q + 1;
    } else {
      assert n % n == 0;
    }
  }

  // The queue `k` places after `from`.
  function Shift(n: nat, from: nat, k: nat): nat
    requires from < n && k <= n
  {
    if from + k < n then from + k else from + k - n
  }

  // The queues as each probe of a pass finds them.  Between probes other threads
  // may add to them and take from them, so nothing relates one probe to the next.
  type Turn<T> = seq<seq<seq<T>>>

  ghost predicate ValidTurn<T>(n: nat, t: Turn<T>) {
    |t| == n && forall k :: 0 <= k < n ==> |t[k]| == n
  }

  // Probe k of a pass that starts at `from` finds its queue non-empty.
  ghost predicate Hit<T>(n: nat, t: Turn<T>, from: nat, k: nat)
    requires ValidTurn(n, t) && from < n && k < n
  {
    t[k][Shift(n, from, k)] != []
  }

  // The pass serves the first queue, in cyclic order, that it finds non-empty
  // and stops just after it; if there is none (served < 0) it stops where it began.
  ghost predicate PassOutcome<T>(n: nat, t: Turn<T>, nextQ: nat, served: int, next: nat) {
    && ValidTurn(n, t) && nextQ < n
    && (served >= 0 ==>
          && served < n
          && var k := Distance(n, nextQ, served);
             && Hit(n, t, nextQ, k) && next == Wrap(n, served)
             && forall i :: 0 <= i < k ==> !Hit(n, t, nextQ, i))
    && (served < 0 ==> next == nextQ && forall i :: 0 <= i < n ==> !Hit(n, t, nextQ, i))
  }

  // One full round-robin pass; only the head of the queue served is removed.
  method Pass<T>(n: nat, t: Turn<T>, nextQ: nat) returns (served: int, item: seq<T>, next: nat, queues: seq<seq<T>>)
    requires ValidTurn(n, t) && nextQ < n
    ensures PassOutcome(n, t, nextQ, served, next)
    ensures served >= 0 ==>
      var before := t[Distance(n, nextQ, served)];
      item == [before[served][0]] && queues == before[served := before[served][1..]]
    ensures served < 0 ==> item == [] && queues == t[n - 1]
  {
    served, item, next, queues := -1, [], nextQ, t[0];
    var i := 0;
    while i < n
      invariant 0 <= i <= n && next == Shift(n, nextQ, i)
      invariant queues == if i == 0 then t[0] else t[i - 1]
      invariant forall k :: 0 <= k < i ==> !Hit(n, t, nextQ, k)
    {
      queues := t[i];
      WrapIsMod(n, next);
      if queues[next] != [] {
        served, item := next, [queues[next][0]];
        queues := queues[next := queues[next][1..]];
        next := (next + 1) % n;
        return;
      }
      next := (next + 1) % n;
      i := i + 1;
    }
  }

  // If the pass gets as far as queue q, it finds q non-empty.
  ghost predicate FoundIfProbed<T>(n: nat, t: Turn<T>, nextQ: nat, q: nat)
    requires ValidTurn(n, t) && nextQ < n && q < n
  {
    var d := Distance(n, nextQ, q);
    (forall i :: 0 <= i < d ==> !Hit(n, t, nextQ, i)) ==> Hit(n, t, nextQ, d)
  }

  // A pass that would find queue q non-empty serves q or a queue before it in
  // cyclic order, and in the latter case stops closer to q.
  lemma PassGetsCloser<T>(n: nat, t: Turn<T>, nextQ: nat, served: int, next: nat, q: nat)
    requires PassOutcome(n, t, nextQ, served, next) && q < n && FoundIfProbed(n, t, nextQ, q)
    ensures served >= 0
    ensures served != q ==> next < n && Distance(n, next, q) < Distance(n, nextQ, q)
  {
    var d := Distance(n, nextQ, q);
    assert Shift(n, nextQ, d) == q;
    var found := Hit(n, t, nextQ, d);
  }

  // A worker's passes; between them the queues may change in any way.
  ghost predicate Passes<T>(n: nat, turns: seq<Turn<T>>, starts: seq<nat>, served: seq<int>) {
    && |starts| == |turns| + 1 && |served| == |turns|
    && forall k :: 0 <= k < |turns| ==> PassAt(n, turns, starts, served, k)
  }

  ghost predicate PassAt<T>(n: nat, turns: seq<Turn<T>>, starts: seq<nat>, served: seq<int>, k: nat)
    requires |starts| == |turns| + 1 && |served| == |turns| && k < |turns|
  {
    PassOutcome(n, turns[k], starts[k], served[k], starts[k + 1])
  }

  // Every pass that probes q finds it non-empty.
  ghost predicate Backlogged<T>(n: nat, turns: seq<Turn<T>>, starts: seq<nat>, q: nat) {
    && q < n && |starts| == |turns| + 1
    && forall k :: 0 <= k < |turns| ==> BackloggedAt(n, turns, starts, q, k)
  }

  ghost predicate BackloggedAt<T>(n: nat, turns: seq<Turn<T>>, starts: seq<nat>, q: nat, k: nat)
    requires q < n && |starts| == |turns| + 1 && k < |turns|
  {
    ValidTurn(n, turns[k]) && starts[k] < n && FoundIfProbed(n, turns[k], starts[k], q)
  }

  // q is served at pass k, and no pass up to then comes back empty-handed.
  ghost predicate ServedBy(served: seq<int>, q: nat, k: nat) {
    k < |served| && served[k] == q && forall j :: 0 <= j <= k ==> served[j] >= 0
  }

  lemma {:induction false} ServedWithin<T>(n: nat, turns: seq<Turn<T>>, starts: seq<nat>, served: seq<int>, q: nat)
    returns (k: nat)
    requires Passes(n, turns, starts, served) && Backlogged(n, turns, starts, q)
    requires starts[0] < n && |turns| > Distance(n, starts[0], q)
    ensures k <= Distance(n, starts[0], q) && ServedBy(served, q, k)
    decreases |turns|
  {
    assert PassAt(n, turns, starts, served, 0) && BackloggedAt(n, turns, starts, q, 0);
    PassGetsCloser(n, turns[0], starts[0], served[0], starts[1], q);
    if served[0] == q {
      k := 0;
    } else {
      var turns', starts', served' := turns[1..], starts[1..], served[1..];
      forall j | 0 <= j < |turns'|
        ensures PassAt(n, turns', starts', served', j) && BackloggedAt(n, turns', starts', q, j)
      {
        assert PassAt(n, turns, starts, served, j + 1) && BackloggedAt(n, turns, starts, q, j + 1);
      }
      k := ServedWithin(n, turns', starts', served', q);
      forall j | 0 <= j <= k + 1 ensures served[j] >= 0 {
        if j > 0 {
          assert served'[j - 1] >= 0;
        }
      }
      k := k + 1;
    }
  }

  // Fairness: a queue that is non-empty whenever it is probed is served among
  // the first n passes, all of which up to then dequeue something.
  lemma ServedInTime<T>(n: nat, turns: seq<Turn<T>>, starts: seq<nat>, served: seq<int>, q: nat)
    returns (k: nat)
    requires Passes(n, turns, starts, served) && Backlogged(n, turns, starts, q) && |turns| >= n
    ensures k < n && ServedBy(served, q, k)
  {
    assert BackloggedAt(n, turns, starts, q, 0);
    k := ServedWithin(n, turns, starts, served, q);
  }
}
