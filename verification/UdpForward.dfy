/** The UDP port forwarder: one reader goroutine on the public socket, one relay
    goroutine per client address, and a stop function, around one mutex, the
    `peers` map and the `closed` flag. */
module UdpForward {
  import opened Prelude

  type Addr = nat  // a client's address
  type Sock = nat  // an upstream socket
  type Data = nat  // the contents of a datagram

  const MAX_PEERS := 256

  datatype Reader = Listening | Got(from: Addr, data: Data) | Gone

  datatype Phase =
    | Reading
    | Carrying(data: Data)  // read from upstream, not yet written to the client
    | Leaving               // read or write failed, entry still in `peers`
    | Closing               // entry deleted, upstream socket not yet closed

  datatype Relay = Relay(addr: Addr, phase: Phase)

  datatype Reply = Reply(via: Sock, to: Addr, data: Data)

  datatype State = State(
    listening: bool,
    closed: bool,
    peers: map<Addr, Sock>,
    open: set<Sock>,               // upstream sockets that are not closed
    creator: map<Sock, Addr>,      // whose datagram made each socket ever dialled
    reader: Reader,
    relays: map<Sock, Relay>,      // running relay goroutines
    received: set<(Sock, Data)>,   // what upstream sockets delivered
    replies: seq<Reply>,           // what was written back to clients
    forwarded: seq<Reply>)         // what was written upstream, `to` being the client

  datatype Event =
    | Datagram(from: Addr, data: Data)
    | ReaderFails
    | Handle(dialled: Option<Sock>)   // the critical section of the reader
    | Receive(c: Sock, data: Data)
    | ReadFails(c: Sock)              // error or 30 second deadline
    | WriteBack(c: Sock, ok: bool)
    | Unregister(c: Sock)
    | CloseUpstream(c: Sock)
    | CloseListener
    | StopAll

  const INITIAL := State(true, false, map[], {}, map[], Listening, map[], {}, [], [])

  /** The reader holds the lock from the test of `closed` to the upstream write. */
  function HandleStep(s: State, dialled: Option<Sock>): State
    requires s.reader.Got?
  {
    var k := s.reader.from;
    if s.closed then s.(reader := Gone)
    else if k in s.peers then
      s.(reader := Listening, forwarded := s.forwarded + [Reply(s.peers[k], k, s.reader.data)])
    else if |s.peers| >= MAX_PEERS || dialled.None? || dialled.value in s.creator then
      s.(reader := Listening)
    else
      var c := dialled.value;
      s.(reader := Listening,
         peers := s.peers[k := c],
         open := s.open + {c},
         creator := s.creator[c := k],
         relays := s.relays[c := Relay(k, Reading)],
         forwarded := s.forwarded + [Reply(c, k, s.reader.data)])
  }

  function Enter(s: State, c: Sock, p: Phase): State
    requires c in s.relays
  {
    s.(relays := s.relays[c := s.relays[c].(phase := p)])
  }

  function Step(s: State, e: Event): State {
    match e
    case Datagram(from, data) =>
      if s.listening && s.reader.Listening? then s.(reader := Got(from, data)) else s
    case ReaderFails =>
      if s.reader.Listening? then s.(reader := Gone) else s
    case Handle(dialled) =>
      if s.reader.Got? then HandleStep(s, dialled) else s
    case Receive(c, data) =>
      if c in s.open && c in s.relays && s.relays[c].phase.Reading? then
        Enter(s, c, Carrying(data)).(received := s.received + {(c, data)})
      else s
    case ReadFails(c) =>
      if c in s.relays && s.relays[c].phase.Reading? then Enter(s, c, Leaving) else s
    case WriteBack(c, ok) =>
      if c in s.relays && s.relays[c].phase.Carrying? then
        if ok && s.listening then
          Enter(s, c, Reading).(replies := s.replies + [Reply(c, s.relays[c].addr, s.relays[c].phase.data)])
        else Enter(s, c, Leaving)
      else s
    case Unregister(c) =>
      if c in s.relays && s.relays[c].phase.Leaving? then
        Enter(s, c, Closing).(peers := s.peers - {s.relays[c].addr})
      else s
    case CloseUpstream(c) =>
      if c in s.relays && s.relays[c].phase.Closing? then
        s.(open := s.open - {c}, relays := s.relays - {c})
      else s
    case CloseListener => s.(listening := false)
    case StopAll =>
      if s.listening then s else s.(closed := true, open := s.open - s.peers.Values)
  }

  function ExecFrom(s: State, events: seq<Event>): State
    decreases |events|
  {
    if events == [] then s else ExecFrom(Step(s, events[0]), events[1..])
  }

  function Exec(events: seq<Event>): State { ExecFrom(INITIAL, events) }

  // ---- what every interleaving keeps ----

  /** c is the relay of client address k and has not unregistered yet. */
  ghost predicate Serves(s: State, c: Sock, k: Addr) {
    c in s.relays && s.relays[c].addr == k && !s.relays[c].phase.Closing?
  }

  /** The `peers` entry of k, if any, is the one relay that still serves k. */
  ghost predicate Exact(s: State, c: Sock, k: Addr) {
    (k in s.peers && s.peers[k] == c) <==> Serves(s, c, k)
  }

  ghost predicate SockOk(s: State, c: Sock) {
    && (c in s.relays ==>
         && c in s.creator && s.creator[c] == s.relays[c].addr
         && (s.closed && !s.relays[c].phase.Closing? ==> c !in s.open)
         && (s.relays[c].phase.Carrying? ==> (c, s.relays[c].phase.data) in s.received))
    && (c in s.open ==> c in s.relays)
  }

  /** A logged datagram travelled between a socket and the address that created it. */
  ghost predicate Matches(s: State, r: Reply) { r.via in s.creator && s.creator[r.via] == r.to }

  ghost predicate LogsOk(s: State) {
    && (forall i :: 0 <= i < |s.replies| ==>
         Matches(s, s.replies[i]) && (s.replies[i].via, s.replies[i].data) in s.received)
    && (forall i :: 0 <= i < |s.forwarded| ==> Matches(s, s.forwarded[i]))
  }

  ghost predicate Inv(s: State) {
    && (forall c: Sock, k: Addr :: Exact(s, c, k))
    && (forall c: Sock :: SockOk(s, c))
    && LogsOk(s)
    && |s.peers| <= MAX_PEERS
    && (s.closed ==> !s.listening)
  }

  ghost predicate OnRelay(e: Event) {
    e.Receive? || e.ReadFails? || e.WriteBack? || e.Unregister? || e.CloseUpstream?
  }

  lemma RelayExact(s: State, e: Event, c: Sock, k: Addr)
    requires OnRelay(e) && Exact(s, c, k) && Exact(s, e.c, k)
    requires e.c in s.relays ==> Exact(s, e.c, s.relays[e.c].addr) && Exact(s, c, s.relays[e.c].addr)
    ensures Exact(Step(s, e), c, k)
  {
  }

  lemma RelaySockOk(s: State, e: Event, c: Sock)
    requires OnRelay(e) && SockOk(s, c) && SockOk(s, e.c)
    ensures SockOk(Step(s, e), c)
  {
  }

  lemma HandleKeeps(s: State, dialled: Option<Sock>)
    requires Inv(s) && s.reader.Got?
    ensures Inv(HandleStep(s, dialled))
  {
    var t := HandleStep(s, dialled);
    var key := s.reader.from;
    forall c: Sock, k: Addr ensures Exact(t, c, k) {
      assert Exact(s, c, k) && SockOk(s, c);
      if dialled.Some? { assert SockOk(s, dialled.value); }
      HandleExact(s, dialled, c, k);
    }
    forall c: Sock ensures SockOk(t, c) {
      assert SockOk(s, c);
      HandleSockOk(s, dialled, c);
    }
    HandleLogs(s, dialled);
  }

  lemma HandleExact(s: State, dialled: Option<Sock>, c: Sock, k: Addr)
    requires s.reader.Got? && Exact(s, c, k) && SockOk(s, c) && (dialled.Some? ==> SockOk(s, dialled.value))
    ensures Exact(HandleStep(s, dialled), c, k)
  {
  }

  lemma HandleSockOk(s: State, dialled: Option<Sock>, c: Sock)
    requires s.reader.Got? && SockOk(s, c)
    ensures SockOk(HandleStep(s, dialled), c)
  {
  }

  lemma HandleLogs(s: State, dialled: Option<Sock>)
    requires Inv(s) && s.reader.Got?
    ensures LogsOk(HandleStep(s, dialled))
  {
    var t := HandleStep(s, dialled);
    var key := s.reader.from;
    if key in s.peers {
      assert Exact(s, s.peers[key], key) && SockOk(s, s.peers[key]);
    }
    forall i | 0 <= i < |t.forwarded| ensures Matches(t, t.forwarded[i]) {
      if i < |s.forwarded| { assert Matches(s, s.forwarded[i]); }
    }
    forall i | 0 <= i < |t.replies| ensures Matches(t, t.replies[i]) { assert Matches(s, s.replies[i]); }
  }

  lemma StopKeeps(s: State)
    requires Inv(s)
    ensures Inv(Step(s, StopAll))
  {
    var t := Step(s, StopAll);
    forall c: Sock, k: Addr ensures Exact(t, c, k) { assert Exact(s, c, k); }
    forall c: Sock ensures SockOk(t, c) {
      assert SockOk(s, c);
      if c in s.relays && !s.relays[c].phase.Closing? && !s.listening {
        assert Exact(s, c, s.relays[c].addr);
        assert c in s.peers.Values;
      }
    }
    forall i | 0 <= i < |t.replies| ensures Matches(t, t.replies[i]) { assert Matches(s, s.replies[i]); }
    forall i | 0 <= i < |t.forwarded| ensures Matches(t, t.forwarded[i]) { assert Matches(s, s.forwarded[i]); }
  }

  lemma RelayLogsOk(s: State, e: Event)
    requires OnRelay(e) && LogsOk(s) && SockOk(s, e.c)
    ensures LogsOk(Step(s, e))
  {
    var t := Step(s, e);
    forall i | 0 <= i < |t.replies|
      ensures Matches(t, t.replies[i]) && (t.replies[i].via, t.replies[i].data) in t.received
    {
      if i < |s.replies| { assert Matches(s, s.replies[i]); }
    }
    forall i | 0 <= i < |t.forwarded| ensures Matches(t, t.forwarded[i]) { assert Matches(s, s.forwarded[i]); }
  }

  lemma RelayKeeps(s: State, e: Event)
    requires Inv(s) && OnRelay(e)
    ensures Inv(Step(s, e))
  {
    var t := Step(s, e);
    forall c: Sock, k: Addr ensures Exact(t, c, k) {
      assert Exact(s, c, k) && Exact(s, e.c, k);
      if e.c in s.relays { assert Exact(s, e.c, s.relays[e.c].addr) && Exact(s, c, s.relays[e.c].addr); }
      RelayExact(s, e, c, k);
    }
    forall c: Sock ensures SockOk(t, c) {
      assert SockOk(s, c) && SockOk(s, e.c);
      RelaySockOk(s, e, c);
    }
    assert SockOk(s, e.c);
    RelayLogsOk(s, e);
    RelayFrame(s, e);
    SubsetSize(t.peers.Keys, s.peers.Keys);
  }

  lemma RelayFrame(s: State, e: Event)
    requires OnRelay(e)
    ensures var t := Step(s, e);
      t.peers.Keys <= s.peers.Keys && t.closed == s.closed && t.listening == s.listening
  {
  }

  lemma ReaderKeeps(s: State, e: Event)
    requires Inv(s) && (e.Datagram? || e.ReaderFails? || e.CloseListener?)
    ensures Inv(Step(s, e))
  {
    var t := Step(s, e);
    forall c: Sock, k: Addr ensures Exact(t, c, k) { assert Exact(s, c, k); }
    forall c: Sock ensures SockOk(t, c) { assert SockOk(s, c); }
    forall i | 0 <= i < |t.replies| ensures Matches(t, t.replies[i]) { assert Matches(s, s.replies[i]); }
    forall i | 0 <= i < |t.forwarded| ensures Matches(t, t.forwarded[i]) { assert Matches(s, s.forwarded[i]); }
  }

  lemma StepKeeps(s: State, e: Event)
    requires Inv(s)
    ensures Inv(Step(s, e))
  {
    if OnRelay(e) {
      RelayKeeps(s, e);
    } else if e.StopAll? {
      StopKeeps(s);
    } else if e.Handle? {
      if s.reader.Got? { HandleKeeps(s, e.dialled); }
    } else {
      ReaderKeeps(s, e);
    }
  }

  lemma {:induction false} RunKeeps(s: State, events: seq<Event>)
    requires Inv(s)
    ensures Inv(ExecFrom(s, events))
    decreases |events|
  {
    if events != [] {
      StepKeeps(s, events[0]);
      RunKeeps(Step(s, events[0]), events[1..]);
    }
  }

  /** Safety of every interleaving. */
  lemma EveryRunIsSafe(events: seq<Event>)
    ensures var s := Exec(events);
      && |s.peers| <= 256
      && (forall c: Sock, k: Addr :: Exact(s, c, k))
      && LogsOk(s)
      && (s.closed ==> s.open !! s.peers.Values)
      && (s.closed && s.relays == map[] ==> s.open == {} && s.peers == map[])
  {
    RunKeeps(INITIAL, events);
    var s := Exec(events);
    if s.closed {
      forall c | c in s.open ensures c !in s.peers.Values {
        assert SockOk(s, c);
        forall k | k in s.peers ensures s.peers[k] != c { assert Exact(s, c, k); }
      }
    }
    if s.closed && s.relays == map[] {
      forall c: Sock ensures c !in s.open { assert SockOk(s, c); }
      forall k | k in s.peers ensures s.peers[k] in s.relays { assert Exact(s, s.peers[k], k); }
    }
  }

  /** A relay that leaves takes its own entry away and nobody else's, whatever
      happened to its key meanwhile. */
  lemma LeavingRemovesOnlyItself(events: seq<Event>, c: Sock)
    requires c in Exec(events).relays && Exec(events).relays[c].phase.Leaving?
    ensures var s := Exec(events);
      var t := Step(s, Unregister(c));
      && c !in t.peers.Values
      && forall k :: k in s.peers && s.peers[k] != c ==> k in t.peers && t.peers[k] == s.peers[k]
  {
    RunKeeps(INITIAL, events);
    var s := Exec(events);
    var key := s.relays[c].addr;
    assert Exact(s, c, key);
    forall k | k in s.peers && k != key ensures s.peers[k] != c { assert Exact(s, c, k); }
  }

  // ---- a stopped forwarder drains ----

  function Rank(r: Relay): nat {
    match r.phase
    case Reading => 3
    case Carrying(_) => 3
    case Leaving => 2
    case Closing => 1
  }

  function ReaderRank(r: Reader): nat {
    match r
    case Got(_, _) => 2
    case Listening => 1
    case Gone => 0
  }

  ghost function Ranks(s: State): map<Sock, nat> { map c | c in s.relays :: Rank(s.relays[c]) }

  ghost function Work(s: State): nat { ReaderRank(s.reader) + Total(Ranks(s)) }

  lemma RelayStepWorks(s: State, t: State, c: Sock)
    requires c in s.relays && t.reader == s.reader
    requires
      || t.relays == s.relays - {c}
      || (c in t.relays && t.relays == s.relays[c := t.relays[c]] && Rank(t.relays[c]) < Rank(s.relays[c]))
    ensures Work(t) < Work(s)
  {
    if c in t.relays {
      var r := Rank(t.relays[c]);
      assert Ranks(t) == Ranks(s)[c := r];
      Replace(Ranks(s), c, r);
    } else {
      assert Ranks(t) == Ranks(s) - {c};
      Extract(Ranks(s), c);
    }
  }

  /** After stop no relay is ever created, and every action uses up work. */
  lemma StoppedStepWorks(s: State, e: Event)
    requires Inv(s) && s.closed
    ensures Step(s, e).closed && Step(s, e).relays.Keys <= s.relays.Keys && Step(s, e).creator == s.creator
    ensures Step(s, e) == s || Work(Step(s, e)) < Work(s)
  {
    var t := Step(s, e);
    if OnRelay(e) {
      assert SockOk(s, e.c);
      if t != s { RelayStepWorks(s, t, e.c); }
    } else if e.StopAll? {
      forall c | c in s.open ensures c !in s.peers.Values {
        assert SockOk(s, c);
        forall k | k in s.peers ensures s.peers[k] != c { assert Exact(s, c, k); }
      }
      assert s.open - s.peers.Values == s.open;
    } else {
      assert Ranks(t) == Ranks(s);
    }
  }

  ghost predicate Moving(s: State, events: seq<Event>)
    decreases |events|
  {
    events == [] || (Step(s, events[0]) != s && Moving(Step(s, events[0]), events[1..]))
  }

  lemma {:induction false} WorkPaysForMoves(s: State, events: seq<Event>)
    requires Inv(s) && s.closed && Moving(s, events)
    ensures ExecFrom(s, events).closed
    ensures ExecFrom(s, events).creator == s.creator
    ensures Work(ExecFrom(s, events)) + |events| <= Work(s)
    decreases |events|
  {
    if events != [] {
      StepKeeps(s, events[0]);
      StoppedStepWorks(s, events[0]);
      WorkPaysForMoves(Step(s, events[0]), events[1..]);
    }
  }

  lemma RelayCanMove(s: State, c: Sock)
    requires c in s.relays
    ensures exists e :: Step(s, e) != s
  {
    match s.relays[c].phase {
      case Reading => assert Step(s, ReadFails(c)).relays[c].phase == Leaving;
      case Carrying(_) => assert Step(s, WriteBack(c, false)).relays[c].phase == Leaving;
      case Leaving => assert Step(s, Unregister(c)).relays[c].phase == Closing;
      case Closing => assert c !in Step(s, CloseUpstream(c)).relays;
    }
  }

  /** After the stop function has run in any reachable state no upstream socket is
      dialled, only boundedly many more actions are possible, and when none is left
      every upstream socket is closed. */
  lemma StoppedForwarderDrains(before: seq<Event>, after: seq<Event>)
    requires Exec(before).closed && Moving(Exec(before), after)
    ensures |after| <= Work(Exec(before))
    ensures var s := ExecFrom(Exec(before), after);
      && s.creator == Exec(before).creator
      && ((forall e :: Step(s, e) == s) ==> s.open == {} && s.peers == map[])
  {
    var s0 := Exec(before);
    RunKeeps(INITIAL, before);
    WorkPaysForMoves(s0, after);
    RunKeeps(s0, after);
    var s := ExecFrom(s0, after);
    if forall e :: Step(s, e) == s {
      if c :| c in s.relays { RelayCanMove(s, c); }
      forall c: Sock ensures c !in s.open { assert SockOk(s, c); }
      forall k | k in s.peers ensures s.peers[k] in s.relays { assert Exact(s, s.peers[k], k); }
    }
  }

  // ---- clients are served ----

  lemma FirstEvent(s: State, e: Event, rest: seq<Event>)
    ensures ExecFrom(s, [e] + rest) == ExecFrom(Step(s, e), rest)
  {
    assert ([e] + rest)[1..] == rest;
  }

  lemma FourEvents(s: State, e: Event, f: Event, g: Event, h: Event)
    ensures ExecFrom(s, [e, f, g, h]) == Step(Step(Step(Step(s, e), f), g), h)
  {
    var t := Step(Step(s, e), f);
    FirstEvent(Step(t, g), h, []);
    FirstEvent(t, g, [h]);
    FirstEvent(Step(s, e), f, [g, h]);
    FirstEvent(s, e, [f, g, h]);
    assert [h] + [] == [h] && [g] + [h] == [g, h] && [f] + [g, h] == [f, g, h] && [e] + [f, g, h] == [e, f, g, h];
  }

  lemma ThreeEvents(s: State, e: Event, f: Event, g: Event)
    ensures ExecFrom(s, [e, f, g]) == Step(Step(Step(s, e), f), g)
  {
    FirstEvent(Step(Step(s, e), f), g, []);
    FirstEvent(Step(s, e), f, [g]);
    FirstEvent(s, e, [f, g]);
    assert [g] + [] == [g] && [f] + [g] == [f, g] && [e] + [f, g] == [e, f, g];
  }

  /** The reader is free to serve a client. */
  ghost predicate Serving(s: State) { s.listening && !s.closed && s.reader.Listening? }

  /** The first datagram of a client opens a relay of its own, goes upstream through it, and what
      upstream answers goes back to that client. */
  lemma NewClientIsAnswered(before: seq<Event>, k: Addr, data: Data, c: Sock, answer: Data)
    requires var s := Exec(before); Serving(s) && k !in s.peers && |s.peers| < 256 && c !in s.creator
    ensures var s := Exec(before);
      ExecFrom(s, [Datagram(k, data), Handle(Some(c)), Receive(c, answer), WriteBack(c, true)])
      == s.(peers := s.peers[k := c], open := s.open + {c}, creator := s.creator[c := k],
            relays := s.relays[c := Relay(k, Reading)], received := s.received + {(c, answer)},
            forwarded := s.forwarded + [Reply(c, k, data)], replies := s.replies + [Reply(c, k, answer)])
  {
    var s := Exec(before);
    FourEvents(s, Datagram(k, data), Handle(Some(c)), Receive(c, answer), WriteBack(c, true));
    var t := s.(peers := s.peers[k := c], open := s.open + {c}, creator := s.creator[c := k],
                relays := s.relays[c := Relay(k, Reading)], forwarded := s.forwarded + [Reply(c, k, data)]);
    assert Step(Step(s, Datagram(k, data)), Handle(Some(c))) == t;
    AnswerGoesBack(t, c, k, answer);
  }

  lemma AnswerGoesBack(s: State, c: Sock, k: Addr, answer: Data)
    requires s.listening && c in s.open && c in s.relays && s.relays[c] == Relay(k, Reading)
    ensures Step(Step(s, Receive(c, answer)), WriteBack(c, true))
         == s.(received := s.received + {(c, answer)}, replies := s.replies + [Reply(c, k, answer)])
  {
    var t := Step(s, Receive(c, answer));
    assert t == s.(relays := s.relays[c := Relay(k, Carrying(answer))], received := s.received + {(c, answer)});
    assert s.relays[c := Relay(k, Carrying(answer))][c := Relay(k, Reading)] == s.relays;
  }

  /** Every further datagram of the client goes through the socket its relay has, and nothing else
      changes. */
  lemma KnownClientIsForwarded(before: seq<Event>, k: Addr, data: Data, dialled: Option<Sock>)
    requires var s := Exec(before); Serving(s) && k in s.peers
    ensures var s := Exec(before);
      ExecFrom(s, [Datagram(k, data), Handle(dialled)])
      == s.(forwarded := s.forwarded + [Reply(s.peers[k], k, data)])
  {
    var s := Exec(before);
    FirstEvent(Step(s, Datagram(k, data)), Handle(dialled), []);
    FirstEvent(s, Datagram(k, data), [Handle(dialled)]);
    assert [Handle(dialled)] + [] == [Handle(dialled)];
    assert [Datagram(k, data)] + [Handle(dialled)] == [Datagram(k, data), Handle(dialled)];
  }

  /** The relay's read fails or times out, or its write to the client fails. */
  ghost predicate Fails(s: State, c: Sock, e: Event) {
    c in s.relays &&
    ((s.relays[c].phase.Reading? && e == ReadFails(c)) || (s.relays[c].phase.Carrying? && e == WriteBack(c, false)))
  }

  /** A relay that fails leaves nothing behind: its entry goes and its socket is closed. */
  lemma FailedRelayLeavesNothing(before: seq<Event>, c: Sock, e: Event)
    requires Fails(Exec(before), c, e)
    ensures var s := Exec(before);
      ExecFrom(s, [e, Unregister(c), CloseUpstream(c)])
      == s.(peers := s.peers - {s.relays[c].addr}, open := s.open - {c}, relays := s.relays - {c})
  {
    var s := Exec(before);
    ThreeEvents(s, e, Unregister(c), CloseUpstream(c));
    var k := s.relays[c].addr;
    var t := Step(s, e);
    assert t == s.(relays := s.relays[c := Relay(k, Leaving)]);
    assert Step(t, Unregister(c)) == s.(relays := s.relays[c := Relay(k, Closing)], peers := s.peers - {k});
    assert s.relays[c := Relay(k, Closing)] - {c} == s.relays - {c};
  }

  /** Stopping closes the listener and the socket of every relay in the table, and is final. */
  lemma StopCloses(before: seq<Event>)
    ensures var s := Exec(before);
      ExecFrom(s, [CloseListener, StopAll]) == s.(listening := false, closed := true, open := s.open - s.peers.Values)
  {
    var s := Exec(before);
    FirstEvent(Step(s, CloseListener), StopAll, []);
    FirstEvent(s, CloseListener, [StopAll]);
    assert [StopAll] + [] == [StopAll] && [CloseListener] + [StopAll] == [CloseListener, StopAll];
  }

  /** The shared variables of one UDP mapping; `m` follows the goroutines around them. */
  class Forwarder {
    var listening: bool
    var closed: bool
    var peers: map<Addr, Sock>
    var open: set<Sock>
    ghost var m: State

    ghost predicate Valid() reads this {
      && m.listening == listening && m.closed == closed
      && m.peers == peers && m.open == open
      && Inv(m)
    }

    constructor ()
      ensures Valid() && m == INITIAL
    {
      listening, closed, peers, open := true, false, map[], {};
      m := INITIAL;
    }

    /** The critical section of the reader. The result is the upstream socket the
        datagram is written to; None drops it. */
    method HandleDatagram(from: Addr, ghost data: Data, dialled: Option<Sock>) returns (via: Option<Sock>)
      requires Valid() && m.reader == Got(from, data)
      requires dialled.Some? ==> dialled.value !in m.creator
      modifies this
      ensures Valid() && m == Step(old(m), Handle(dialled))
      ensures via.Some? <==> m.forwarded == old(m).forwarded + [Reply(if via.Some? then via.value else 0, from, data)]
      ensures via.None? ==> m.forwarded == old(m).forwarded
      ensures via ==
        if old(closed) then None
        else if from in old(peers) then Some(old(peers)[from])
        else if |old(peers)| < 256 then dialled
        else None
      ensures if via.Some? && from !in old(peers)
        then peers == old(peers)[from := via.value] && open == old(open) + {via.value}
        else peers == old(peers) && open == old(open)
      ensures closed == old(closed) && listening == old(listening)
      ensures m.reader == if closed then Gone else Listening
    {
      StepKeeps(m, Handle(dialled));
      assert |peers| == |peers.Keys|;
      m := Step(m, Handle(dialled));
      if closed {
        return None;
      }
      if from in peers {
        return Some(peers[from]);
      }
      if |peers| >= MAX_PEERS || dialled.None? {
        return None;
      }
      var c := dialled.value;
      peers := peers[from := c];
      open := open + {c};
      via := Some(c);
    }

    /** The deferred deletion of a finishing relay, by key and without looking at the value. */
    method Forget(ghost c: Sock, key: Addr)
      requires Valid() && c in m.relays && m.relays[c] == Relay(key, Leaving)
      modifies this
      ensures Valid() && m == Step(old(m), Unregister(c))
      ensures key in old(peers) && old(peers)[key] == c && peers == old(peers) - {key}
      ensures open == old(open) && closed == old(closed) && listening == old(listening)
    {
      StepKeeps(m, Unregister(c));
      assert Exact(m, c, key);
      m := Step(m, Unregister(c));
      peers := peers - {key};
    }

    /** The locked part of the stop function. */
    method Stop()
      requires Valid() && !listening
      modifies this
      ensures Valid() && m == Step(old(m), StopAll)
      ensures closed && peers == old(peers) && open == old(open) - peers.Values && listening == old(listening)
    {
      StepKeeps(m, StopAll);
      m := Step(m, StopAll);
      closed := true;
      var rest := peers.Values;
      while rest != {}
        invariant rest <= peers.Values
        invariant open == old(open) - (peers.Values - rest)
        invariant peers == old(peers) && closed && listening == old(listening)
        invariant m == Step(old(m), StopAll)
        decreases |rest|
      {
        var c :| c in rest;
        open := open - {c};
        rest := rest - {c};
      }
    }
  }
}
