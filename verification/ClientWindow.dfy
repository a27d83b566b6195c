// The request window of src/client.cpp.
module ClientWindow {
  datatype Mode = FixedRate | MaxInFlight

  // The leader_id of a response: without a colon, or an address that inet_pton accepts or not.
  datatype LeaderField = NoColon | Address(ip: string, valid: bool)

  datatype Response = Response(success: bool, leader: LeaderField, requestId: int)

  // `issued` lists the request ids sent so far, in order.
  datatype Window = Window(inFlight: int, nextId: int, times: set<int>, server: string, issued: seq<int>)

  function InitClient(server: string): Window { Window(0, 1, {}, server, []) }

  // The results of the sendto calls to come.  A loop that keeps sending while
  // sends fail does not end; the model stops when the list is used up.
  datatype Progress = Progress(c: Window, rest: seq<bool>)

  function SendRequest(mode: Mode, c: Window, sent: bool): Window {
    c.(nextId := c.nextId + 1, issued := c.issued + [c.nextId], times := c.times + {c.nextId},
       inFlight := if sent && mode.MaxInFlight? then c.inFlight + 1 else c.inFlight)
  }

  function SendNext(mode: Mode, p: Progress): Progress {
    if p.rest == [] then p else Progress(SendRequest(mode, p.c, p.rest[0]), p.rest[1..])
  }

  // for (i = 0; i < times; i++) send_request()
  function SendTimes(mode: Mode, p: Progress, times: int): Progress
    decreases if times > 0 then times else 0
  {
    if times <= 0 then p else SendTimes(mode, SendNext(mode, p), times - 1)
  }

  // while (in_flight_ < max_in_flight_) send_request()
  function Refill(mode: Mode, cap: int, p: Progress): Progress
    decreases |p.rest|
  {
    if p.c.inFlight >= cap || p.rest == [] then p else Refill(mode, cap, SendNext(mode, p))
  }

  datatype Event =
    | SendTimer
    | Timeout
    | Receive(r: Response)

  function OnStart(mode: Mode, cap: int, p: Progress): Progress {
    var first := SendNext(mode, p);
    if mode.MaxInFlight? then SendTimes(mode, first, cap - 1) else first
  }

  function OnTimeout(mode: Mode, cap: int, p: Progress): Progress {
    if p.c.inFlight > 0 then SendTimes(mode, p.(c := p.c.(inFlight := 0)), cap) else p
  }

  function Emptied(mode: Mode, c: Window): Window {
    if mode.MaxInFlight? then c.(inFlight := 0) else c
  }

  // handle_response returns before its last part
  predicate ReturnsEarly(c: Window, r: Response) {
    !r.success && r.leader.Address? && (r.leader.ip == "" || (r.leader.valid && c.server == r.leader.ip))
  }

  function Redirected(mode: Mode, cap: int, p: Progress, ip: string): Progress {
    var q := p.(c := Emptied(mode, p.c).(server := ip));
    if mode.MaxInFlight? then Refill(mode, cap, SendNext(mode, q)) else q
  }

  function Settle(mode: Mode, cap: int, p: Progress, requestId: int): Progress {
    var c := p.c.(times := p.c.times - {requestId});
    if !mode.MaxInFlight? then p.(c := c)
    else Refill(mode, cap, p.(c := c.(inFlight := if c.inFlight > 0 then c.inFlight - 1 else c.inFlight)))
  }

  function OnReceive(mode: Mode, cap: int, p: Progress, r: Response): Progress {
    if ReturnsEarly(p.c, r) then
      if r.leader.ip == "" then SendNext(mode, p.(c := Emptied(mode, p.c))) else p
    else
      var q := if !r.success && r.leader.Address? && r.leader.valid then Redirected(mode, cap, p, r.leader.ip) else p;
      Settle(mode, cap, q, r.requestId)
  }

  function OnEvent(mode: Mode, cap: int, p: Progress, e: Event): Progress {
    match e
    case SendTimer =>
      if mode.FixedRate? then SendNext(mode, p) else Refill(mode, cap, p)
    case Timeout => OnTimeout(mode, cap, p)
    case Receive(r) => OnReceive(mode, cap, p, r)
  }

  // A session: run starts it, then events follow, each with its own send results.
  function Session(mode: Mode, cap: int, server: string, start: seq<bool>, events: seq<(Event, seq<bool>)>): Window
    decreases |events|
  {
    if |events| == 0 then OnStart(mode, cap, Progress(InitClient(server), start)).c
    else
      var last := |events| - 1;
      OnEvent(mode, cap, Progress(Session(mode, cap, server, start, events[..last]), events[last].1), events[last].0).c
  }

  // ---- the window ----

  // Ids are issued once each, in order; the window is within its cap and no
  // larger than the number of requests still timed.
  ghost predicate Consistent(mode: Mode, cap: int, c: Window) {
    && (mode.FixedRate? ==> c.inFlight == 0)
    && c.nextId == |c.issued| + 1
    && (forall k :: 0 <= k < |c.issued| ==> c.issued[k] == k + 1)
    && (forall t :: t in c.times ==> 1 <= t < c.nextId)
    && 0 <= c.inFlight <= cap && c.inFlight <= |c.times|
  }

  lemma SendConsistent(mode: Mode, cap: int, p: Progress)
    requires Consistent(mode, cap, p.c) && (mode.MaxInFlight? ==> p.c.inFlight < cap)
    ensures Consistent(mode, cap, SendNext(mode, p).c)
    ensures SendNext(mode, p).c.inFlight <= p.c.inFlight + 1
  {
    if p.rest != [] {
      assert p.c.nextId !in p.c.times;
    }
  }

  lemma {:induction false} SendTimesConsistent(mode: Mode, cap: int, p: Progress, times: int)
    requires Consistent(mode, cap, p.c) && (mode.MaxInFlight? && times > 0 ==> p.c.inFlight + times <= cap)
    ensures Consistent(mode, cap, SendTimes(mode, p, times).c)
    decreases if times > 0 then times else 0
  {
    if times > 0 {
      SendConsistent(mode, cap, p);
      SendTimesConsistent(mode, cap, SendNext(mode, p), times - 1);
    }
  }

  lemma {:induction false} RefillConsistent(mode: Mode, cap: int, p: Progress)
    requires Consistent(mode, cap, p.c) && mode.MaxInFlight?
    ensures Consistent(mode, cap, Refill(mode, cap, p).c)
    decreases |p.rest|
  {
    if p.c.inFlight < cap && p.rest != [] {
      SendConsistent(mode, cap, p);
      RefillConsistent(mode, cap, SendNext(mode, p));
    }
  }

  lemma EventConsistent(mode: Mode, cap: int, p: Progress, e: Event)
    requires Consistent(mode, cap, p.c) && cap >= 1
    ensures Consistent(mode, cap, OnEvent(mode, cap, p, e).c)
  {
    match e
    case SendTimer =>
      if mode.FixedRate? {
        SendConsistent(mode, cap, p);
      } else {
        RefillConsistent(mode, cap, p);
      }
    case Timeout =>
      if p.c.inFlight > 0 {
        SendTimesConsistent(mode, cap, p.(c := p.c.(inFlight := 0)), cap);
      }
    case Receive(r) =>
      if ReturnsEarly(p.c, r) {
        SendConsistent(mode, cap, p.(c := Emptied(mode, p.c)));
      } else {
        var q := p;
        if !r.success && r.leader.Address? && r.leader.valid {
          q := Redirected(mode, cap, p, r.leader.ip);
          if mode.MaxInFlight? {
            var e := p.(c := Emptied(mode, p.c).(server := r.leader.ip));
            SendConsistent(mode, cap, e);
            RefillConsistent(mode, cap, SendNext(mode, e));
          }
        }
        if mode.MaxInFlight? {
          var c := q.c.(times := q.c.times - {r.requestId});
          RefillConsistent(mode, cap, q.(c := c.(inFlight := if c.inFlight > 0 then c.inFlight - 1 else c.inFlight)));
        }
      }
  }

  // Over every session the window stays within its cap and within the requests
  // still timed, and no request id is used twice.
  lemma {:induction false} SessionConsistent(mode: Mode, cap: int, server: string, start: seq<bool>,
                                             events: seq<(Event, seq<bool>)>)
    requires cap >= 1
    ensures Consistent(mode, cap, Session(mode, cap, server, start, events))
    decreases |events|
  {
    if |events| == 0 {
      var p := Progress(InitClient(server), start);
      SendConsistent(mode, cap, p);
      SendTimesConsistent(mode, cap, SendNext(mode, p), cap - 1);
    } else {
      var last := |events| - 1;
      SessionConsistent(mode, cap, server, start, events[..last]);
      var before := Session(mode, cap, server, start, events[..last]);
      EventConsistent(mode, cap, Progress(before, events[last].1), events[last].0);
    }
  }

  // The cap is kept exactly when it admits the request that run always sends first.
  lemma CapKeptIff(cap: int, server: string)
    ensures (forall start, events :: Session(MaxInFlight, cap, server, start, events).inFlight <= cap)
            <==> cap >= 1
  {
    if cap >= 1 {
      forall start, events
        ensures Session(MaxInFlight, cap, server, start, events).inFlight <= cap
      {
        SessionConsistent(MaxInFlight, cap, server, start, events);
      }
    } else {
      var none: seq<(Event, seq<bool>)> := [];
      assert Session(MaxInFlight, cap, server, [true], none).inFlight == 1;
    }
  }

  // ---- the window is full ----

  ghost predicate AllSent(rest: seq<bool>) { forall k :: 0 <= k < |rest| ==> rest[k] }

  lemma {:induction false} RefillFills(cap: int, p: Progress)
    requires p.c.inFlight <= cap && AllSent(p.rest) && |p.rest| >= cap - p.c.inFlight
    ensures var q := Refill(MaxInFlight, cap, p);
            q.c.inFlight == cap && AllSent(q.rest) && |q.rest| == |p.rest| - (cap - p.c.inFlight)
    decreases |p.rest|
  {
    if p.c.inFlight < cap {
      RefillFills(cap, SendNext(MaxInFlight, p));
    }
  }

  // When sends succeed, every response that is processed to the end leaves the
  // window exactly full, whatever it was before.
  lemma ReceiveFills(cap: int, p: Progress, r: Response)
    requires Consistent(MaxInFlight, cap, p.c) && cap >= 1 && !ReturnsEarly(p.c, r)
    requires AllSent(p.rest) && |p.rest| >= 2 * cap
    ensures OnReceive(MaxInFlight, cap, p, r).c.inFlight == cap
  {
    var q := p;
    if !r.success && r.leader.Address? && r.leader.valid {
      q := Redirected(MaxInFlight, cap, p, r.leader.ip);
      RefillFills(cap, SendNext(MaxInFlight, p.(c := Emptied(MaxInFlight, p.c).(server := r.leader.ip))));
    }
    var c := q.c.(times := q.c.times - {r.requestId});
    RefillFills(cap, q.(c := c.(inFlight := if c.inFlight > 0 then c.inFlight - 1 else c.inFlight)));
  }

  // ---- what is sent ----

  function Successes(results: seq<bool>, k: nat): nat
    requires k <= |results|
  {
    if k == 0 then 0 else Successes(results, k - 1) + if results[k - 1] then 1 else 0
  }

  // first, first + 1, ..., first + k - 1
  function IdsFrom(first: int, k: nat): (ids: set<int>)
    ensures forall t :: t in ids <==> first <= t < first + k
  {
    if k == 0 then {} else IdsFrom(first, k - 1) + {first + k - 1}
  }

  // The client after k requests: their ids are the next k, all are timed, and the
  // successful ones are in flight if that is counted at all.
  ghost function AfterSends(mode: Mode, p: Progress, k: nat): Progress
    requires k <= |p.rest|
  {
    var first := p.c.nextId;
    Progress(p.c.(nextId := first + k, issued := p.c.issued + seq(k, j => first + j),
                  times := p.c.times + IdsFrom(first, k),
                  inFlight := p.c.inFlight + if mode.MaxInFlight? then Successes(p.rest, k) else 0),
             p.rest[k..])
  }

  lemma NoSends(mode: Mode, p: Progress)
    ensures AfterSends(mode, p, 0) == p
  {
  }

  lemma OneMoreSend(mode: Mode, p: Progress, k: nat)
    requires k < |p.rest|
    ensures SendNext(mode, AfterSends(mode, p, k)) == AfterSends(mode, p, k + 1)
  {
    var first := p.c.nextId;
    assert p.rest[k..][1..] == p.rest[k + 1..];
    assert p.c.issued + seq(k, j => first + j) + [first + k] == p.c.issued + seq(k + 1, j => first + j);
    assert p.c.times + IdsFrom(first, k) + {first + k} == p.c.times + IdsFrom(first, k + 1);
  }

  // As many of `times` requests as there are results for.
  function Upto(times: int, results: seq<bool>): nat {
    if times <= 0 then 0 else if times <= |results| then times else |results|
  }

  lemma {:induction false} SendTimesSends(mode: Mode, p: Progress, k: nat, times: int, l: nat)
    requires k <= |p.rest| && l == if times <= 0 then k else Upto(k + times, p.rest)
    ensures SendTimes(mode, AfterSends(mode, p, k), times) == AfterSends(mode, p, l)
    decreases if times > 0 then times else 0
  {
    if times > 0 {
      if k < |p.rest| {
        OneMoreSend(mode, p, k);
        SendTimesSends(mode, p, k + 1, times - 1, l);
      } else {
        SendTimesSends(mode, p, k, times - 1, l);
      }
    }
  }

  lemma {:induction false} RefillSends(mode: Mode, cap: int, p: Progress, k: nat) returns (l: nat)
    requires k <= |p.rest|
    ensures k <= l <= |p.rest| && Refill(mode, cap, AfterSends(mode, p, k)) == AfterSends(mode, p, l)
    decreases |p.rest| - k
  {
    l := k;
    if AfterSends(mode, p, k).c.inFlight < cap && k < |p.rest| {
      OneMoreSend(mode, p, k);
      l := RefillSends(mode, cap, p, k + 1);
    }
  }

  // run sends one request and, if it counts them, as many as fill the window.
  lemma StartSends(mode: Mode, cap: int, p: Progress)
    ensures OnStart(mode, cap, p)
            == AfterSends(mode, p, Upto(if mode.MaxInFlight? && cap > 1 then cap else 1, p.rest))
  {
    NoSends(mode, p);
    if p.rest != [] {
      OneMoreSend(mode, p, 0);
      SendTimesSends(mode, p, 1, cap - 1, if cap > 1 then Upto(cap, p.rest) else 1);
    } else {
      SendTimesSends(mode, p, 0, cap - 1, 0);
    }
  }

  // A timeout gives up what is in flight and sends a whole window, unless nothing is.
  lemma TimeoutSends(mode: Mode, cap: int, p: Progress)
    ensures OnTimeout(mode, cap, p)
            == if p.c.inFlight <= 0 then p else AfterSends(mode, p.(c := p.c.(inFlight := 0)), Upto(cap, p.rest))
  {
    var q := p.(c := p.c.(inFlight := 0));
    NoSends(mode, q);
    SendTimesSends(mode, q, 0, cap, Upto(cap, q.rest));
  }

  // The send timer sends one request at a fixed rate, and otherwise fills the window.
  lemma TimerSends(mode: Mode, cap: int, p: Progress)
    requires mode.MaxInFlight? ==> p.c.inFlight <= cap && AllSent(p.rest) && |p.rest| >= cap - p.c.inFlight
    ensures OnEvent(mode, cap, p, SendTimer)
            == AfterSends(mode, p, if mode.FixedRate? then Upto(1, p.rest) else cap - p.c.inFlight)
  {
    NoSends(mode, p);
    if mode.MaxInFlight? {
      RefillFills(cap, p);
      var l := RefillSends(mode, cap, p, 0);
      assert |p.rest| - l == |p.rest| - (cap - p.c.inFlight);
    } else if p.rest != [] {
      OneMoreSend(mode, p, 0);
    }
  }

  // ---- what a response does ----

  // The response names another server.
  predicate Redirects(r: Response) {
    !r.success && r.leader.Address? && r.leader.ip != "" && r.leader.valid
  }

  // Sending leaves the server and the timing of earlier requests alone.
  ghost predicate KeepsEarlier(c: Window, c': Window) {
    && c'.server == c.server && c.nextId <= c'.nextId
    && forall t :: t < c.nextId ==> (t in c'.times <==> t in c.times)
  }

  lemma RefillKeeps(mode: Mode, cap: int, p: Progress)
    ensures KeepsEarlier(p.c, Refill(mode, cap, p).c)
  {
    NoSends(mode, p);
    var l := RefillSends(mode, cap, p, 0);
  }

  // A response moves the client to the server it names, if any, and ends the
  // timing of its request, unless it is not processed to the end.
  lemma ReceiveSettles(mode: Mode, cap: int, p: Progress, r: Response)
    ensures var q := OnReceive(mode, cap, p, r);
            && q.c.server == (if Redirects(r) then r.leader.ip else p.c.server)
            && forall t :: t < p.c.nextId ==>
                 (t in q.c.times <==> t in p.c.times && (t != r.requestId || ReturnsEarly(p.c, r)))
  {
    if !ReturnsEarly(p.c, r) {
      var q := p;
      if !r.success && r.leader.Address? && r.leader.valid {
        q := Redirected(mode, cap, p, r.leader.ip);
        RefillKeeps(mode, cap, SendNext(mode, p.(c := Emptied(mode, p.c).(server := r.leader.ip))));
      }
      var c := q.c.(times := q.c.times - {r.requestId});
      RefillKeeps(mode, cap, q.(c := c.(inFlight := if c.inFlight > 0 then c.inFlight - 1 else c.inFlight)));
    }
  }

  // The server named by the last response that names one, else the first server.
  function LastNamed(server: string, events: seq<(Event, seq<bool>)>): string {
    if |events| == 0 then server
    else
      var e := events[|events| - 1].0;
      if e.Receive? && Redirects(e.r) then e.r.leader.ip else LastNamed(server, events[..|events| - 1])
  }

  lemma {:induction false} ServerIsLastNamed(mode: Mode, cap: int, server: string, start: seq<bool>,
                                             events: seq<(Event, seq<bool>)>)
    ensures Session(mode, cap, server, start, events).server == LastNamed(server, events)
    decreases |events|
  {
    if |events| == 0 {
      StartSends(mode, cap, Progress(InitClient(server), start));
    } else {
      var last := |events| - 1;
      ServerIsLastNamed(mode, cap, server, start, events[..last]);
      var p := Progress(Session(mode, cap, server, start, events[..last]), events[last].1);
      match events[last].0
      case SendTimer => RefillKeeps(mode, cap, p);
      case Timeout => TimeoutSends(mode, cap, p);
      case Receive(r) => ReceiveSettles(mode, cap, p, r);
    }
  }

  // A response that names another server, or none, empties the window: the first
  // makes the client send a whole window there and then one more for the request
  // it answers, the second makes it send one request.
  lemma RedirectSends(cap: int, p: Progress, r: Response)
    requires cap >= 1 && AllSent(p.rest) && |p.rest| > cap && !r.success && r.leader.Address?
    requires r.leader.ip == "" || (Redirects(r) && r.leader.ip != p.c.server)
    ensures var c := OnReceive(MaxInFlight, cap, p, r).c;
            if r.leader.ip == "" then |c.issued| == |p.c.issued| + 1 && c.inFlight == 1
            else |c.issued| == |p.c.issued| + cap + 1 && c.inFlight == cap
  {
    if r.leader.ip != "" {
      var e := p.(c := Emptied(MaxInFlight, p.c).(server := r.leader.ip));
      NoSends(MaxInFlight, e);
      OneMoreSend(MaxInFlight, e, 0);
      RefillFills(cap, SendNext(MaxInFlight, e));
      var l := RefillSends(MaxInFlight, cap, e, 1);
      var q := Redirected(MaxInFlight, cap, p, r.leader.ip);
      SuccessSendsNext(cap, q, r.(success := true));
    }
  }

  // A success answered to a full window sends exactly one more request.
  lemma SuccessSendsNext(cap: int, p: Progress, r: Response)
    requires r.success && 1 <= p.c.inFlight == cap && p.rest != [] && p.rest[0]
    ensures |OnReceive(MaxInFlight, cap, p, r).c.issued| == |p.c.issued| + 1
    ensures OnReceive(MaxInFlight, cap, p, r).c.inFlight == cap
  {
    var e := p.(c := p.c.(times := p.c.times - {r.requestId}, inFlight := cap - 1));
    assert Refill(MaxInFlight, cap, e) == Refill(MaxInFlight, cap, SendNext(MaxInFlight, e));
  }
}

// The same client as the object it is, its callbacks overwriting fields.
module ClientObject {
  import W = ClientWindow

  class Client {
    const mode: W.Mode
    const maxInFlight: int
    var inFlight: int
    var requestId: int
    var requestTimes: set<int>
    var server: string
    var results: seq<bool>       // the sendto results still to come
    ghost var issued: seq<int>

    ghost function View(): W.Progress
      reads this
    {
      W.Progress(W.Window(inFlight, requestId, requestTimes, server, issued), results)
    }

    constructor (server: string, mode: W.Mode, maxInFlight: int, results: seq<bool>)
      ensures View() == W.Progress(W.InitClient(server), results)
      ensures this.mode == mode && this.maxInFlight == maxInFlight
    {
      this.mode, this.maxInFlight, this.server, this.results := mode, maxInFlight, server, results;
      inFlight, requestId, requestTimes, issued := 0, 1, {}, [];
    }

    method SendRequest()
      modifies this
      ensures View() == W.SendNext(mode, old(View()))
    {
      if results == [] {
        return;
      }
      issued := issued + [requestId];
      requestTimes := requestTimes + {requestId};
      requestId := requestId + 1;
      if results[0] {
        if mode.MaxInFlight? {
          inFlight := inFlight + 1;
        }
      }
      results := results[1..];
    }

    method SendTimes(times: int)
      modifies this
      ensures View() == W.SendTimes(mode, old(View()), times)
    {
      var i := 0;
      while i < times
        invariant 0 <= i && (times > 0 ==> i <= times)
        invariant W.SendTimes(mode, View(), times - i) == W.SendTimes(mode, old(View()), times)
      {
        SendRequest();
        i := i + 1;
      }
    }

    method Refill()
      modifies this
      ensures View() == W.Refill(mode, maxInFlight, old(View()))
    {
      while inFlight < maxInFlight && results != []
        invariant W.Refill(mode, maxInFlight, View()) == W.Refill(mode, maxInFlight, old(View()))
        decreases |results|
      {
        SendRequest();
      }
    }

    method Run()
      modifies this
      ensures View() == W.OnStart(mode, maxInFlight, old(View()))
    {
      SendRequest();
      if mode.MaxInFlight? {
        SendTimes(maxInFlight - 1);
      }
    }

    method TimeoutCallback()
      modifies this
      ensures View() == W.OnTimeout(mode, maxInFlight, old(View()))
    {
      if inFlight > 0 {
        inFlight := 0;
        SendTimes(maxInFlight);
      }
    }

    method HandleResponse(r: W.Response)
      modifies this
      ensures View() == W.OnReceive(mode, maxInFlight, old(View()), r)
    {
      if !r.success {
        if r.leader.Address? {
          if r.leader.ip == "" {
            if mode.MaxInFlight? {
              inFlight := 0;
            }
            SendRequest();
            return;
          }
          if r.leader.valid {
            if server == r.leader.ip {
              return;
            }
            if mode.MaxInFlight? {
              inFlight := 0;
            }
            server := r.leader.ip;
            if mode.MaxInFlight? {
              SendRequest();
              Refill();
            }
          }
        }
      }
      requestTimes := requestTimes - {r.requestId};
      if mode.MaxInFlight? {
        if inFlight > 0 {
          inFlight := inFlight - 1;
        }
        Refill();
      }
    }
  }
}
