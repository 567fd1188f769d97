/** The TCP port forwarder: one accept loop, one goroutine per admitted client and
    a stop function, all meeting at one mutex, the `active` map and the `closed` flag.

    `Step` is one atomic action of one goroutine (a critical section, a dial or a
    close); `Exec` runs an arbitrary interleaving. Events that are not possible in
    a state leave it unchanged, so every event sequence is a run. */
module TcpForward {
  import opened Prelude

  /** Identity of a connection. */
  type Sock = nat

  const MAX_CLIENTS := 512

  datatype Role = Client | Backend(of: Sock)

  /** Where the accept loop is. */
  datatype Acceptor =
    | Waiting
    | Holding(c: Sock)  // accepted, not yet at the lock
    | Turning(c: Sock)  // refused under the lock, about to be closed
    | Gone

  /** Where the goroutine of one client is. */
  datatype Handler =
    | Dialing
    | DialFailed
    | Dialled(b: Sock)      // connected, not yet registered
    | Refused(b: Sock)      // found `closed`; closes the client next
    | RefusedHalf(b: Sock)  // client closed; closes the backend next
    | Bridging(b: Sock)     // registered and copying
    | BridgeHalf(b: Sock)   // bridge over, backend closed
    | BridgeOver(b: Sock)   // client closed too, backend still registered
    | Leaving               // only the client's own entry is left to delete
  {
    predicate Registered() { Bridging? || BridgeHalf? || BridgeOver? }
    predicate InTransit() { Dialled? || Refused? || RefusedHalf? }
    predicate HasBackend() { Registered() || InTransit() }
    /** The goroutine has closed its client. */
    predicate ClientDone() { RefusedHalf? || BridgeOver? || Leaving? }
    /** The bridge has closed its backend. */
    predicate BackendDone() { BridgeHalf? || BridgeOver? }
  }

  datatype State = State(
    listening: bool,
    closed: bool,
    active: set<Sock>,
    open: set<Sock>,          // accepted or dialled, and not closed
    role: map<Sock, Role>,    // every connection that ever existed
    acceptor: Acceptor,
    handlers: map<Sock, Handler>)

  datatype Event =
    | Accept(c: Sock)
    | AcceptFails
    | Admit                        // the locked test in the accept loop
    | TurnAway
    | DialOk(c: Sock, b: Sock)
    | DialErr(c: Sock)
    | Proceed(c: Sock)             // the next action of client c's goroutine
    | CloseListener
    | StopAll                      // the locked part of the stop function

  const INITIAL := State(true, false, {}, {}, map[], Waiting, map[])

  function Step(s: State, e: Event): State {
    match e
    case Accept(c) =>
      if s.listening && s.acceptor.Waiting? && c !in s.role then
        s.(acceptor := Holding(c), open := s.open + {c}, role := s.role[c := Client])
      else s
    case AcceptFails =>
      if s.acceptor.Waiting? then s.(acceptor := Gone) else s
    case Admit => if s.acceptor.Holding? then AdmitStep(s, s.acceptor.c) else s
    case TurnAway =>
      if s.acceptor.Turning? then s.(acceptor := Waiting, open := s.open - {s.acceptor.c}) else s
    case DialOk(c, b) =>
      if c in s.handlers && s.handlers[c].Dialing? && b !in s.role then
        s.(handlers := s.handlers[c := Dialled(b)], open := s.open + {b}, role := s.role[b := Backend(c)])
      else s
    case DialErr(c) =>
      if c in s.handlers && s.handlers[c].Dialing? then s.(handlers := s.handlers[c := DialFailed]) else s
    case Proceed(c) =>
      if c in s.handlers then Advance(s, c) else s
    case CloseListener =>
      s.(listening := false)
    case StopAll =>
      if s.listening then s else s.(closed := true, open := s.open - s.active)
  }

  /** The test of the accept loop and what it decides, under one lock. */
  function AdmitStep(s: State, c: Sock): State {
    if s.closed || |s.active| >= MAX_CLIENTS then s.(acceptor := Turning(c))
    else s.(acceptor := Waiting, active := s.active + {c}, handlers := s.handlers[c := Dialing])
  }

  function Advance(s: State, c: Sock): State
    requires c in s.handlers
  {
    match s.handlers[c]
    case Dialing => s
    case DialFailed => s.(open := s.open - {c}, handlers := s.handlers[c := Leaving])
    case Dialled(b) =>
      if s.closed then s.(handlers := s.handlers[c := Refused(b)])
      else s.(active := s.active + {b}, handlers := s.handlers[c := Bridging(b)])
    case Refused(b) => s.(open := s.open - {c}, handlers := s.handlers[c := RefusedHalf(b)])
    case RefusedHalf(b) => s.(open := s.open - {b}, handlers := s.handlers[c := Leaving])
    case Bridging(b) => s.(open := s.open - {b}, handlers := s.handlers[c := BridgeHalf(b)])
    case BridgeHalf(b) => s.(open := s.open - {c}, handlers := s.handlers[c := BridgeOver(b)])
    case BridgeOver(b) => s.(active := s.active - {b}, handlers := s.handlers[c := Leaving])
    case Leaving => s.(active := s.active - {c}, handlers := s.handlers - {c})
  }

  function ExecFrom(s: State, events: seq<Event>): State
    decreases |events|
  {
    if events == [] then s else ExecFrom(Step(s, events[0]), events[1..])
  }

  function Exec(events: seq<Event>): State { ExecFrom(INITIAL, events) }

  // ---- what every interleaving keeps ----

  ghost predicate HeldByAcceptor(s: State, x: Sock) {
    (s.acceptor.Holding? || s.acceptor.Turning?) && s.acceptor.c == x
  }

  /** x was dialled for a client whose goroutine still has it in hand. */
  ghost predicate InHand(s: State, x: Sock) {
    && x in s.role && s.role[x].Backend? && s.role[x].of in s.handlers
    && s.handlers[s.role[x].of].HasBackend() && s.handlers[s.role[x].of].b == x
  }

  /** x is a backend that its goroutine holds outside the `active` map. */
  ghost predicate HeldByDialer(s: State, x: Sock) {
    InHand(s, x) && s.handlers[s.role[x].of].InTransit()
  }

  /** x is a backend that its goroutine has put into the `active` map. */
  ghost predicate HeldByBridge(s: State, x: Sock) {
    InHand(s, x) && s.handlers[s.role[x].of].Registered()
  }

  /** An open connection is registered or in a named transit state, and once the
      stop function has run only the transit states remain. */
  ghost predicate Accounted(s: State, x: Sock) {
    x in s.open ==> HeldByAcceptor(s, x) || HeldByDialer(s, x) || (!s.closed && x in s.active)
  }

  /** `active` holds exactly the running clients and the registered backends. */
  ghost predicate Exact(s: State, x: Sock) {
    x in s.active <==> x in s.handlers || HeldByBridge(s, x)
  }

  ghost predicate Ok(s: State, x: Sock) {
    && Accounted(s, x) && Exact(s, x)
    && (x in s.open ==> x in s.role)
    && (HeldByAcceptor(s, x) ==> x in s.role && s.role[x].Client? && x !in s.handlers)
    && (x in s.handlers ==>
         && x in s.role && s.role[x].Client?
         && (s.handlers[x].ClientDone() ==> x !in s.open)
         && (s.handlers[x].BackendDone() ==> s.handlers[x].b !in s.open)
         && (s.handlers[x].HasBackend() ==> s.handlers[x].b in s.role && s.role[s.handlers[x].b] == Backend(x)))
  }

  ghost predicate Inv(s: State) {
    && (forall x: Sock :: Ok(s, x))
    && |s.handlers| <= MAX_CLIENTS
    && (s.closed ==> !s.listening)
  }

  /** The connection an event is about. */
  ghost function Subject(s: State, e: Event): Sock {
    match e
    case Accept(c) => c
    case Admit => if s.acceptor.Holding? then s.acceptor.c else 0
    case TurnAway => if s.acceptor.Turning? then s.acceptor.c else 0
    case DialOk(c, _) => c
    case DialErr(c) => c
    case Proceed(c) => c
    case _ => 0
  }

  /** Ok for x and for the connections that x and the event refer to. */
  ghost predicate Nearby(s: State, c: Sock, x: Sock) {
    && Ok(s, x) && Ok(s, c)
    && (x in s.role && s.role[x].Backend? ==> Ok(s, s.role[x].of))
    && (c in s.handlers && s.handlers[c].HasBackend() ==> Ok(s, s.handlers[c].b))
  }

  lemma AdmitOk(s: State, c: Sock, x: Sock)
    requires Nearby(s, c, x) && s.acceptor == Holding(c)
    ensures Ok(AdmitStep(s, c), x)
  {
  }

  lemma AcceptorOk(s: State, e: Event, x: Sock)
    requires e.Accept? || e.AcceptFails? || e.TurnAway?
    requires Nearby(s, Subject(s, e), x) && (s.closed ==> !s.listening)
    ensures Ok(Step(s, e), x)
  {
  }

  lemma DialKeepsOk(s: State, e: Event, x: Sock)
    requires e.DialOk? || e.DialErr?
    requires Nearby(s, e.c, x)
    ensures Ok(Step(s, e), x)
  {
  }

  lemma StopOk(s: State, e: Event, x: Sock)
    requires e.CloseListener? || e.StopAll?
    requires Ok(s, x)
    ensures Ok(Step(s, e), x)
  {
  }

  lemma DialledOk(s: State, c: Sock, x: Sock)
    requires c in s.handlers && Nearby(s, c, x)
    requires s.handlers[c].DialFailed? || s.handlers[c].Dialled?
    ensures Ok(Advance(s, c), x)
  {
  }

  lemma RefusalOk(s: State, c: Sock, x: Sock)
    requires c in s.handlers && Nearby(s, c, x)
    requires s.handlers[c].Refused? || s.handlers[c].RefusedHalf?
    ensures Ok(Advance(s, c), x)
  {
  }

  lemma BridgeOk(s: State, c: Sock, x: Sock)
    requires c in s.handlers && Nearby(s, c, x)
    requires s.handlers[c].Bridging? || s.handlers[c].BridgeHalf?
    ensures Ok(Advance(s, c), x)
  {
  }

  lemma LeavingOk(s: State, c: Sock, x: Sock)
    requires c in s.handlers && Nearby(s, c, x)
    requires s.handlers[c].BridgeOver? || s.handlers[c].Leaving?
    ensures Ok(Advance(s, c), x)
  {
  }

  lemma StepOk(s: State, e: Event, x: Sock)
    requires Inv(s)
    ensures Ok(Step(s, e), x)
  {
    var y := Subject(s, e);
    assert Ok(s, x) && Ok(s, y);
    if x in s.role && s.role[x].Backend? { assert Ok(s, s.role[x].of); }
    if y in s.handlers && s.handlers[y].HasBackend() { assert Ok(s, s.handlers[y].b); }
    match e {
      case DialOk(_, _) => DialKeepsOk(s, e, x);
      case DialErr(_) => DialKeepsOk(s, e, x);
      case CloseListener => StopOk(s, e, x);
      case StopAll => StopOk(s, e, x);
      case Proceed(c) =>
        if c in s.handlers {
          match s.handlers[c]
          case Dialing =>
          case DialFailed | Dialled(_) => DialledOk(s, c, x);
          case Refused(_) | RefusedHalf(_) => RefusalOk(s, c, x);
          case Bridging(_) | BridgeHalf(_) => BridgeOk(s, c, x);
          case BridgeOver(_) | Leaving => LeavingOk(s, c, x);
        }
      case Admit => if s.acceptor.Holding? { AdmitOk(s, s.acceptor.c, x); }
      case _ => AcceptorOk(s, e, x);
    }
  }

  lemma AdmissionRespectsLimit(s: State, c: Sock)
    requires s.handlers.Keys <= s.active && |s.handlers| <= MAX_CLIENTS
    ensures |AdmitStep(s, c).handlers| <= MAX_CLIENTS
  {
    SubsetSize(s.handlers.Keys, s.active);
    assert s.handlers[c := Dialing].Keys == s.handlers.Keys + {c};
  }

  lemma StepKeeps(s: State, e: Event)
    requires Inv(s)
    ensures Inv(Step(s, e))
  {
    forall x: Sock ensures Ok(Step(s, e), x) { StepOk(s, e, x); }
    forall x | x in s.handlers ensures x in s.active { assert Ok(s, x); }
    if e.Admit? {
      if s.acceptor.Holding? { AdmissionRespectsLimit(s, s.acceptor.c); }
    } else {
      SubsetSize(Step(s, e).handlers.Keys, s.handlers.Keys);
    }
  }

  /** Peeling one client off takes at most two registered connections with it. */
  lemma {:induction false} TwoPerClient(s: State, clients: set<Sock>, conns: set<Sock>)
    requires forall x :: x in conns ==> x in clients || (HeldByBridge(s, x) && s.role[x].of in clients)
    ensures |conns| <= 2 * |clients|
    decreases |clients|
  {
    if clients == {} {
      if x :| x in conns { assert x in clients; }
    } else {
      var c :| c in clients;
      var own := if c in s.handlers && s.handlers[c].HasBackend() then {c, s.handlers[c].b} else {c};
      TwoPerClient(s, clients - {c}, conns - own);
      assert conns <= (conns - own) + own;
      SubsetSize(conns, (conns - own) + own);
      assert |(conns - own) + own| <= |conns - own| + |own|;
    }
  }

  lemma InvBounds(s: State)
    requires Inv(s)
    ensures s.handlers.Keys <= s.active && |s.active| <= 2 * MAX_CLIENTS
  {
    forall x | x in s.handlers ensures x in s.active { assert Ok(s, x); }
    forall x | x in s.active ensures x in s.handlers || HeldByBridge(s, x) { assert Ok(s, x); }
    TwoPerClient(s, s.handlers.Keys, s.active);
  }

  lemma {:induction false} RunKeeps(s: State, events: seq<Event>)
    requires Inv(s)
    ensures Inv(ExecFrom(s, events))
    decreases |events|
  {
    if events != [] {
      StepKeeps(s, events[0]);
      RunKeeps(Step(s, events[0]), events[1..]);
    }
  }

  ghost predicate Quiet(s: State) {
    s.handlers == map[] && (s.acceptor.Waiting? || s.acceptor.Gone?)
  }

  lemma QuietMeansClosed(s: State)
    requires Inv(s) && s.closed && Quiet(s)
    ensures s.open == {} && s.active == {}
  {
    forall x: Sock ensures x !in s.open && x !in s.active { assert Ok(s, x); }
  }

  /** Safety of every interleaving: at most 512 clients and 1024 registered
      connections, each of them accounted for, and once the stop function has run
      and nobody is in transit, nothing is open. */
  lemma EveryRunIsSafe(events: seq<Event>)
    ensures var s := Exec(events);
      && |s.handlers| <= 512 && s.handlers.Keys <= s.active && |s.active| <= 1024
      && (forall x: Sock :: Exact(s, x) && Accounted(s, x))
      && (s.closed && Quiet(s) ==> s.open == {} && s.active == {})
  {
    RunKeeps(INITIAL, events);
    var s := Exec(events);
    InvBounds(s);
    forall x: Sock ensures Exact(s, x) && Accounted(s, x) { assert Ok(s, x); }
    if s.closed && Quiet(s) { QuietMeansClosed(s); }
  }

  // ---- a stopped forwarder drains ----

  function Rank(h: Handler): nat {
    match h
    case Dialing => 6
    case DialFailed => 5
    case Dialled(_) => 5
    case Refused(_) => 4
    case RefusedHalf(_) => 3
    case Bridging(_) => 4
    case BridgeHalf(_) => 3
    case BridgeOver(_) => 2
    case Leaving => 1
  }

  function AcceptorRank(a: Acceptor): nat {
    match a
    case Holding(_) => 3
    case Turning(_) => 2
    case Waiting => 1
    case Gone => 0
  }

  ghost function Ranks(s: State): map<Sock, nat> { map c | c in s.handlers :: Rank(s.handlers[c]) }

  ghost function Work(s: State): nat { AcceptorRank(s.acceptor) + Total(Ranks(s)) }

  lemma HandlerStepWorks(s: State, t: State, c: Sock)
    requires c in s.handlers && t.acceptor == s.acceptor
    requires
      || t.handlers == s.handlers - {c}
      || (c in t.handlers && t.handlers == s.handlers[c := t.handlers[c]] && Rank(t.handlers[c]) < Rank(s.handlers[c]))
    ensures Work(t) < Work(s)
  {
    if c in t.handlers {
      var r := Rank(t.handlers[c]);
      assert Ranks(t) == Ranks(s)[c := r];
      Replace(Ranks(s), c, r);
    } else {
      assert Ranks(t) == Ranks(s) - {c};
      Extract(Ranks(s), c);
    }
  }

  lemma StoppedStepWorks(s: State, e: Event)
    requires Inv(s) && s.closed
    ensures Step(s, e).closed
    ensures Step(s, e) == s || Work(Step(s, e)) < Work(s)
  {
    var t := Step(s, e);
    if e.DialOk? || e.DialErr? || e.Proceed? {
      if t != s {
        RankFalls(s, e);
        HandlerStepWorks(s, t, e.c);
      }
    } else if e.StopAll? {
      StoppedOpen(s);
    } else {
      assert Ranks(t) == Ranks(s);
    }
  }

  lemma RankFalls(s: State, e: Event)
    requires e.DialOk? || e.DialErr? || e.Proceed?
    requires s.closed && Step(s, e) != s
    ensures var t, c := Step(s, e), e.c;
      && c in s.handlers && t.acceptor == s.acceptor && t.closed
      && (|| t.handlers == s.handlers - {c}
          || (c in t.handlers && t.handlers == s.handlers[c := t.handlers[c]]
              && Rank(t.handlers[c]) < Rank(s.handlers[c])))
  {
  }

  /** Nothing registered is open any more, so stopping again changes nothing. */
  lemma StoppedOpen(s: State)
    requires Inv(s) && s.closed
    ensures Step(s, StopAll) == s
  {
    forall x | x in s.open ensures x !in s.active {
      assert Ok(s, x);
      if HeldByAcceptor(s, x) { } else { assert Ok(s, s.role[x].of); }
    }
    assert s.open - s.active == s.open;
  }

  /** While work is left, some goroutine can move. */
  lemma StoppedCanMove(s: State)
    requires Inv(s) && s.closed && Work(s) > 0
    ensures exists e :: Step(s, e) != s
  {
    if !s.acceptor.Gone? {
      assert Step(s, AcceptFails) != s || Step(s, Admit) != s || Step(s, TurnAway) != s;
    } else {
      assert Ranks(s) != map[];
      var c :| c in Ranks(s);
      if s.handlers[c].Dialing? {
        assert Step(s, DialErr(c)).handlers[c] == DialFailed;
        assert Step(s, DialErr(c)) != s;
      } else if s.handlers[c].Leaving? {
        assert c !in Step(s, Proceed(c)).handlers;
        assert Step(s, Proceed(c)) != s;
      } else {
        assert Step(s, Proceed(c)).handlers[c] != s.handlers[c];
        assert Step(s, Proceed(c)) != s;
      }
    }
  }

  /** Every event of the sequence changes the state it is applied to. */
  ghost predicate Moving(s: State, events: seq<Event>)
    decreases |events|
  {
    events == [] || (Step(s, events[0]) != s && Moving(Step(s, events[0]), events[1..]))
  }

  lemma {:induction false} WorkPaysForMoves(s: State, events: seq<Event>)
    requires Inv(s) && s.closed && Moving(s, events)
    ensures ExecFrom(s, events).closed
    ensures Work(ExecFrom(s, events)) + |events| <= Work(s)
    decreases |events|
  {
    if events != [] {
      StepKeeps(s, events[0]);
      StoppedStepWorks(s, events[0]);
      WorkPaysForMoves(Step(s, events[0]), events[1..]);
    }
  }

  lemma StuckMeansQuiet(s: State)
    requires Inv(s) && s.closed && forall e :: Step(s, e) == s
    ensures Quiet(s)
  {
    if Work(s) > 0 {
      StoppedCanMove(s);
    } else if c :| c in s.handlers {
      Extract(Ranks(s), c);
    }
  }

  /** After the stop function has run in any reachable state, the goroutines can take
      only boundedly many more actions, and when none is left every connection that
      was ever accepted or dialled is closed. */
  lemma StoppedForwarderDrains(before: seq<Event>, after: seq<Event>)
    requires Exec(before).closed && Moving(Exec(before), after)
    ensures |after| <= Work(Exec(before))
    ensures var s := ExecFrom(Exec(before), after);
      (forall e :: Step(s, e) == s) ==> s.open == {} && s.active == {}
  {
    var s0 := Exec(before);
    RunKeeps(INITIAL, before);
    WorkPaysForMoves(s0, after);
    RunKeeps(s0, after);
    var s := ExecFrom(s0, after);
    if forall e :: Step(s, e) == s {
      StuckMeansQuiet(s);
      QuietMeansClosed(s);
    }
  }

  // ---- clients are served ----

  lemma FirstEvent(s: State, e: Event, rest: seq<Event>)
    ensures ExecFrom(s, [e] + rest) == ExecFrom(Step(s, e), rest)
  {
    assert ([e] + rest)[1..] == rest;
  }

  lemma FourEvents(s: State, e: Event, f: Event, g: Event, h: Event)
    ensures ExecFrom(s, [e, f, g, h]) == Step(Step(Step(Step(s, e), f), g), h)
  {
    var t := Step(Step(s, e), f);
    FirstEvent(Step(t, g), h, []);
    FirstEvent(t, g, [h]);
    FirstEvent(Step(s, e), f, [g, h]);
    FirstEvent(s, e, [f, g, h]);
    assert [h] + [] == [h] && [g] + [h] == [g, h] && [f] + [g, h] == [f, g, h] && [e] + [f, g, h] == [e, f, g, h];
  }

  /** A forwarder that can take one more client, seen from two connections nobody has used. */
  ghost predicate HasRoom(s: State, c: Sock, b: Sock) {
    && s.listening && !s.closed && s.acceptor.Waiting? && |s.active| < 512
    && c != b && c !in s.role && b !in s.role
  }

  /** What an admitted client with a connected backend adds to a state. */
  ghost function Serving(s: State, c: Sock, b: Sock): State {
    s.(active := s.active + {c, b}, open := s.open + {c, b}, role := s.role[c := Client][b := Backend(c)],
       handlers := s.handlers[c := Bridging(b)])
  }

  /** In any reachable state with room, a client whose backend answers is bridged to it, and both
      connections are registered and open. */
  lemma ClientIsServed(before: seq<Event>, c: Sock, b: Sock)
    requires HasRoom(Exec(before), c, b)
    ensures ExecFrom(Exec(before), [Accept(c), Admit, DialOk(c, b), Proceed(c)]) == Serving(Exec(before), c, b)
  {
    var s := Exec(before);
    FourEvents(s, Accept(c), Admit, DialOk(c, b), Proceed(c));
    var s1 := Step(s, Accept(c));
    var s2 := Step(s1, Admit);
    assert s2 == s.(active := s.active + {c}, open := s.open + {c}, role := s.role[c := Client],
                    handlers := s.handlers[c := Dialing]);
    assert s.active + {c} + {b} == s.active + {c, b} && s.open + {c} + {b} == s.open + {c, b};
    assert s.handlers[c := Dialing][c := Dialled(b)][c := Bridging(b)] == s.handlers[c := Bridging(b)];
  }

  /** When the bridge is over, both connections are closed and deleted, and the forwarder is as it
      was before the client came. */
  lemma ServedClientLeavesNothing(before: seq<Event>, c: Sock, b: Sock)
    requires HasRoom(Exec(before), c, b)
    ensures var s := Exec(before);
      ExecFrom(Serving(s, c, b), [Proceed(c), Proceed(c), Proceed(c), Proceed(c)])
      == s.(role := s.role[c := Client][b := Backend(c)])
  {
    var s := Exec(before);
    ReachableUnused(before, c, b);
    BridgeEnds(Serving(s, c, b), c, b);
    assert s.handlers[c := Bridging(b)] - {c} == s.handlers;
  }

  lemma BridgeEnds(s: State, c: Sock, b: Sock)
    requires c in s.handlers && s.handlers[c] == Bridging(b)
    ensures ExecFrom(s, [Proceed(c), Proceed(c), Proceed(c), Proceed(c)])
         == s.(active := s.active - {c, b}, open := s.open - {c, b}, handlers := s.handlers - {c})
  {
    FourEvents(s, Proceed(c), Proceed(c), Proceed(c), Proceed(c));
    var s1 := Step(s, Proceed(c));
    var s2 := Step(s1, Proceed(c));
    var s3 := Step(s2, Proceed(c));
    assert s1 == s.(open := s.open - {b}, handlers := s.handlers[c := BridgeHalf(b)]);
    assert s2 == s.(open := s.open - {b} - {c}, handlers := s.handlers[c := BridgeOver(b)]);
    assert s3 == s.(open := s.open - {b} - {c}, active := s.active - {b}, handlers := s.handlers[c := Leaving]);
    assert s.handlers[c := Leaving] - {c} == s.handlers - {c};
  }

  lemma ReachableUnused(before: seq<Event>, c: Sock, b: Sock)
    requires c !in Exec(before).role && b !in Exec(before).role
    ensures var s := Exec(before); {c, b} !! s.active && {c, b} !! s.open && c !in s.handlers && b !in s.handlers
  {
    RunKeeps(INITIAL, before);
    assert Ok(Exec(before), c) && Ok(Exec(before), b);
    Unused(Exec(before), c, b);
  }

  lemma Unused(s: State, c: Sock, b: Sock)
    requires Ok(s, c) && Ok(s, b) && c !in s.role && b !in s.role
    ensures {c, b} !! s.active && {c, b} !! s.open && c !in s.handlers && b !in s.handlers
  {
  }

  /** A client whose backend cannot be reached is closed and forgotten. */
  lemma FailedDialLeavesNothing(before: seq<Event>, c: Sock, b: Sock)
    requires HasRoom(Exec(before), c, b)
    ensures var s := Exec(before);
      ExecFrom(s, [Accept(c), Admit, DialErr(c), Proceed(c), Proceed(c)]) == s.(role := s.role[c := Client])
  {
    var s := Exec(before);
    ReachableUnused(before, c, b);
    var s1 := Step(s, Accept(c));
    FourEvents(s1, Admit, DialErr(c), Proceed(c), Proceed(c));
    FirstEvent(s, Accept(c), [Admit, DialErr(c), Proceed(c), Proceed(c)]);
    assert [Accept(c)] + [Admit, DialErr(c), Proceed(c), Proceed(c)]
        == [Accept(c), Admit, DialErr(c), Proceed(c), Proceed(c)];
    var s2 := s.(active := s.active + {c}, open := s.open + {c}, role := s.role[c := Client],
                 handlers := s.handlers[c := Dialing]);
    assert Step(s1, Admit) == s2;
    DialFails(s2, c);
    assert s.handlers[c := Dialing] - {c} == s.handlers;
  }

  lemma DialFails(s: State, c: Sock)
    requires c in s.handlers && s.handlers[c].Dialing?
    ensures Step(Step(Step(s, DialErr(c)), Proceed(c)), Proceed(c))
         == s.(active := s.active - {c}, open := s.open - {c}, handlers := s.handlers - {c})
  {
    var s1 := Step(s, DialErr(c));
    assert s1 == s.(handlers := s.handlers[c := DialFailed]);
    assert Step(s1, Proceed(c)) == s.(open := s.open - {c}, handlers := s.handlers[c := Leaving]);
    assert s.handlers[c := Leaving] - {c} == s.handlers - {c};
  }

  /** A client that comes when 512 connections are registered is closed at once. */
  lemma FullForwarderTurnsAway(before: seq<Event>, c: Sock)
    requires var s := Exec(before);
      s.listening && s.acceptor.Waiting? && |s.active| >= 512 && c !in s.role
    ensures var s := Exec(before);
      ExecFrom(s, [Accept(c), Admit, TurnAway]) == s.(role := s.role[c := Client])
  {
    var s := Exec(before);
    RunKeeps(INITIAL, before);
    assert Ok(s, c);
    var s1 := Step(s, Accept(c));
    var s2 := Step(s1, Admit);
    FirstEvent(s2, TurnAway, []);
    FirstEvent(s1, Admit, [TurnAway]);
    FirstEvent(s, Accept(c), [Admit, TurnAway]);
    assert [TurnAway] + [] == [TurnAway] && [Admit] + [TurnAway] == [Admit, TurnAway];
    assert [Accept(c)] + [Admit, TurnAway] == [Accept(c), Admit, TurnAway];
    assert s.open + {c} - {c} == s.open;
  }

  /** Stopping closes the listener and every registered connection, and is final. */
  lemma StopCloses(before: seq<Event>)
    ensures var s := Exec(before);
      ExecFrom(s, [CloseListener, StopAll]) == s.(listening := false, closed := true, open := s.open - s.active)
  {
    var s := Exec(before);
    FirstEvent(Step(s, CloseListener), StopAll, []);
    FirstEvent(s, CloseListener, [StopAll]);
    assert [StopAll] + [] == [StopAll] && [CloseListener] + [StopAll] == [CloseListener, StopAll];
  }

  lemma AdmissionDecided(s: State, c: Sock)
    requires Inv(s) && s.acceptor == Holding(c)
    ensures c !in s.active && c !in s.handlers
  {
    assert Ok(s, c);
  }

  lemma StillRegistered(s: State, c: Sock, x: Sock)
    requires Inv(s) && c in s.handlers
    requires s.handlers[c] == BridgeOver(x) || (s.handlers[c].Leaving? && x == c)
    ensures x in s.active
  {
    assert Ok(s, c) && Ok(s, x);
  }

  /** The shared variables of one mapping. `m` follows the goroutines around them;
      each method is one critical section. */
  class Forwarder {
    var listening: bool
    var closed: bool
    var active: set<Sock>   // the keys of the map; the values are all true
    var open: set<Sock>
    ghost var m: State

    ghost predicate Valid() reads this {
      && m.listening == listening && m.closed == closed
      && m.active == active && m.open == open
      && Inv(m)
    }

    constructor ()
      ensures Valid() && m == INITIAL
    {
      listening, closed, active, open := true, false, {}, {};
      m := INITIAL;
    }

    /** The locked test of the accept loop, for the connection it holds. */
    method AdmitClient(c: Sock) returns (admitted: bool)
      requires Valid() && m.acceptor == Holding(c)
      modifies this
      ensures Valid() && m == Step(old(m), Admit)
      ensures admitted <==> !old(closed) && |old(active)| < 512
      ensures active == (if admitted then old(active) + {c} else old(active)) && c !in old(active)
      ensures open == old(open) && closed == old(closed) && listening == old(listening)
      ensures m.acceptor == (if admitted then Waiting else Turning(c)) && (c in m.handlers <==> admitted)
    {
      AdmissionDecided(m, c);
      StepKeeps(m, Admit);
      admitted := !(closed || |active| >= MAX_CLIENTS);
      m := Step(m, Admit);
      if admitted {
        active := active + {c};
      }
    }

    /** The locked test after a successful dial. */
    method RegisterBackend(c: Sock, b: Sock) returns (registered: bool)
      requires Valid() && c in m.handlers && m.handlers[c] == Dialled(b)
      modifies this
      ensures Valid() && m == Step(old(m), Proceed(c))
      ensures registered <==> !old(closed)
      ensures active == if registered then old(active) + {b} else old(active)
      ensures open == old(open) && closed == old(closed) && listening == old(listening)
      ensures m.handlers == old(m.handlers)[c := if registered then Bridging(b) else Refused(b)]
    {
      StepKeeps(m, Proceed(c));
      m := Step(m, Proceed(c));
      registered := !closed;
      if registered {
        active := active + {b};
      }
    }

    /** The deferred deletions: x is the backend after the bridge, or the client at the end. */
    method Unregister(ghost c: Sock, x: Sock)
      requires Valid() && c in m.handlers
      requires m.handlers[c] == BridgeOver(x) || (m.handlers[c] == Leaving && x == c)
      modifies this
      ensures Valid() && m == Step(old(m), Proceed(c))
      ensures active == old(active) - {x} && x in old(active)
      ensures open == old(open) && closed == old(closed) && listening == old(listening)
    {
      StepKeeps(m, Proceed(c));
      StillRegistered(m, c, x);
      m := Step(m, Proceed(c));
      active := active - {x};
    }

    /** The locked part of the stop function: raise the flag and close everything registered. */
    method Stop()
      requires Valid() && !listening
      modifies this
      ensures Valid() && m == Step(old(m), StopAll)
      ensures closed && active == old(active) && open == old(open) - active && listening == old(listening)
    {
      StepKeeps(m, StopAll);
      m := Step(m, StopAll);
      closed := true;
      var rest := active;
      while rest != {}
        invariant rest <= active
        invariant open == old(open) - (active - rest)
        invariant active == old(active) && closed && listening == old(listening)
        invariant m == Step(old(m), StopAll)
        decreases |rest|
      {
        var c :| c in rest;
        open := open - {c};
        rest := rest - {c};
      }
    }
  }
}
