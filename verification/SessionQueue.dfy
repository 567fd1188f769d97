/** The request queue of a remote session: messages come in over the data channel or the
    relay, wait in a queue of 64, and are handled one after the other by the session's own
    goroutine, which sends one result for each. Terminal output is sent by other goroutines in
    between. `Step` is one atomic action: the callback of the channel and the caller of the
    relay each look at or set the route under a lock, and enqueue only after they have
    released it. */
module SessionQueue {
  import opened Prelude

  const QUEUE := 64
  const LONGEST := 65536

  /** A message: its length, and what parsing it gives. */
  datatype Message = Message(length: nat, request: Option<Request>)
  datatype Request = Request(id: int, op: int)

  /** The outcome of handling a request; any value the operation may return. */
  datatype Outcome = Outcome(ok: bool, value: int)

  datatype Route = Channel | Relayed

  /** What the session writes to its browser. */
  datatype Sent = Result(id: int, outcome: Outcome) | Terminal(data: int)

  /** What the session's goroutine is doing. */
  datatype Runner =
    | Idle
    | Parsing(m: Message)
    | Handling(m: Message)
    | Sending(m: Message, outcome: Outcome)
    | Exited

  datatype Handled = Handled(m: Message, outcome: Outcome)

  datatype Arrival = Arrival(m: Message, route: Route)

  /** The two ways in. Each has one goroutine, with at most one message between the lock and the
      queue; arrivals are numbered in the order in which they took the lock. */
  datatype Intake = Intake(
    relay: bool,
    onChannel: Option<nat>,   // found the route to be the channel, not yet enqueued
    onRelay: Option<nat>,     // has switched the route, not yet enqueued
    arrived: seq<Arrival>,    // everything the browser's side delivered
    order: seq<nat>,          // the arrivals that were enqueued, in that order
    ignored: seq<nat>)        // those dropped for coming over the channel after the switch

  datatype State = State(
    intake: Intake,
    cancelled: bool,
    queue: seq<Message>,
    runner: Runner,
    wire: seq<Sent>,
    accepted: seq<Message>,   // put into the queue
    handled: seq<Handled>,    // request and outcome, its result sent
    lost: seq<Message>)       // in the goroutine's hand when it gave up

  datatype Event =
    | Tests(m: Message)             // the channel's callback: which route?
    | Switches(m: Message)          // the relay: the route is the relay now
    | Enqueues(route: Route, lucky: bool)  // lucky: after cancellation a free place may still be taken
    | Cancel                        // close, time limit, lost connection
    | Takes
    | Parses
    | Handles(outcome: Outcome)
    | Sends(ok: bool)
    | TerminalSends(data: int)      // terminal output, between two results
    | Exits

  const EMPTY := Intake(false, None, None, [], [], [])
  const INITIAL := State(EMPTY, false, [], Idle, [], [], [], [])

  function Tested(i: Intake, m: Message): Intake {
    if i.onChannel.Some? then i else
      var t, n := i.(arrived := i.arrived + [Arrival(m, Channel)]), |i.arrived|;
      if i.relay then t.(ignored := i.ignored + [n]) else t.(onChannel := Some(n))
  }

  function Switched(i: Intake, m: Message): Intake {
    if i.onRelay.Some? then i
    else i.(relay := true, arrived := i.arrived + [Arrival(m, Relayed)], onRelay := Some(|i.arrived|))
  }

  function HandOf(i: Intake, route: Route): Option<nat> { if route.Channel? then i.onChannel else i.onRelay }

  function Released(i: Intake, route: Route): Intake {
    if route.Channel? then i.(onChannel := None) else i.(onRelay := None)
  }

  /** The select of the accepting side, for the message in this goroutine's hand. */
  function Enqueue(s: State, route: Route, lucky: bool): State {
    var hand, i := HandOf(s.intake, route), Released(s.intake, route);
    if hand.None? || hand.value >= |i.arrived| then s else
      var n, m := hand.value, i.arrived[hand.value].m;
      if m.length <= LONGEST && |s.queue| < QUEUE && (!s.cancelled || lucky) then
        s.(intake := i.(order := i.order + [n]), queue := s.queue + [m], accepted := s.accepted + [m])
      else s.(intake := i, cancelled := true)
  }

  /** The session's own goroutine, and everything else that is not about the intake. */
  function RunnerStep(s: State, e: Event): State {
    match e
    case Cancel => s.(cancelled := true)
    case Takes =>
      if s.runner.Idle? && s.queue != [] then s.(runner := Parsing(s.queue[0]), queue := s.queue[1..]) else s
    case Parses =>
      if s.runner.Parsing? then
        if s.runner.m.request.Some? then s.(runner := Handling(s.runner.m))
        else s.(runner := Exited, cancelled := true, lost := s.lost + [s.runner.m])
      else s
    case Handles(outcome) =>
      if s.runner.Handling? then s.(runner := Sending(s.runner.m, outcome)) else s
    case Sends(ok) =>
      if s.runner.Sending? && s.runner.m.request.Some? then
        if ok then s.(runner := Idle, wire := s.wire + [Result(s.runner.m.request.value.id, s.runner.outcome)],
                      handled := s.handled + [Handled(s.runner.m, s.runner.outcome)])
        else s.(runner := Exited, cancelled := true, lost := s.lost + [s.runner.m])
      else s
    case TerminalSends(data) => s.(wire := s.wire + [Terminal(data)])
    case Exits => if s.runner.Idle? && s.cancelled then s.(runner := Exited) else s
    case _ => s
  }

  function Step(s: State, e: Event): State {
    match e
    case Tests(m) => s.(intake := Tested(s.intake, m))
    case Switches(m) => s.(intake := Switched(s.intake, m))
    case Enqueues(route, lucky) => Enqueue(s, route, lucky)
    case _ => RunnerStep(s, e)
  }

  function ExecFrom(s: State, events: seq<Event>): State
    decreases |events|
  {
    if events == [] then s else ExecFrom(Step(s, events[0]), events[1..])
  }

  function Exec(events: seq<Event>): State { ExecFrom(INITIAL, events) }

  // ---- the account ----

  /** The message the goroutine is working on. */
  function InHand(r: Runner): seq<Message> {
    match r
    case Parsing(m) => [m]
    case Handling(m) => [m]
    case Sending(m, _) => [m]
    case _ => []
  }

  function Messages(hs: seq<Handled>): seq<Message> { seq(|hs|, i requires 0 <= i < |hs| => hs[i].m) }

  /** The results in a stream of what was sent. */
  function Results(wire: seq<Sent>): seq<Sent> {
    if wire == [] then []
    else Results(wire[..|wire| - 1]) + (if wire[|wire| - 1].Result? then [wire[|wire| - 1]] else [])
  }

  /** The result that belongs to a handled request. */
  function ResultOf(h: Handled): Sent { Result(if h.m.request.Some? then h.m.request.value.id else 0, h.outcome) }

  function ResultsOf(hs: seq<Handled>): seq<Sent> { seq(|hs|, i requires 0 <= i < |hs| => ResultOf(hs[i])) }

  /** Nothing that was accepted disappears, whatever happens later: it is handled, in the
      goroutine's hand, given up by it, or still queued, in the order of acceptance. */
  ghost predicate Account(s: State) {
    && s.accepted == Messages(s.handled) + s.lost + InHand(s.runner) + s.queue
    && |s.lost| <= 1 && (s.lost != [] ==> s.runner.Exited?)
    && (s.runner.Exited? ==> s.cancelled)
    && |s.queue| <= QUEUE
  }

  /** One result for each handled request, in order, with its id. */
  ghost predicate Answers(s: State) {
    && Results(s.wire) == ResultsOf(s.handled)
    && ((s.runner.Handling? || s.runner.Sending?) ==> s.runner.m.request.Some?)
    && (forall i :: 0 <= i < |s.handled| ==> s.handled[i].m.request.Some?)
  }

  ghost predicate Short(accepted: seq<Message>) { forall i :: 0 <= i < |accepted| ==> accepted[i].length <= LONGEST }

  // ---- the intake ----

  /** Arrival n came over the channel after one over the relay. */
  ghost predicate Late(arrived: seq<Arrival>, n: nat) {
    n < |arrived| && arrived[n].route.Channel? && exists j :: 0 <= j < n && arrived[j].route.Relayed?
  }

  /** The enqueued arrivals, then those in hand. */
  function Order(i: Intake): seq<nat> {
    i.order + (if i.onChannel.Some? then [i.onChannel.value] else [])
            + (if i.onRelay.Some? then [i.onRelay.value] else [])
  }

  /** Each way in keeps its own order. */
  ghost predicate PerRoute(arrived: seq<Arrival>, o: seq<nat>) {
    && (forall p :: 0 <= p < |o| ==> o[p] < |arrived| && !Late(arrived, o[p]))
    && (forall p, q :: 0 <= p < q < |o| && arrived[o[p]].route == arrived[o[q]].route ==> o[p] < o[q])
  }

  ghost predicate HandsOk(i: Intake) {
    && (i.onChannel.Some? ==> i.onChannel.value < |i.arrived| && i.arrived[i.onChannel.value].route.Channel?)
    && (i.onRelay.Some? ==> i.onRelay.value < |i.arrived| && i.arrived[i.onRelay.value].route.Relayed?)
    && (i.relay <==> exists j :: 0 <= j < |i.arrived| && i.arrived[j].route.Relayed?)
  }

  /** Exactly the late arrivals were dropped. */
  ghost predicate IgnoredOk(i: Intake) { forall n: nat :: n in i.ignored <==> Late(i.arrived, n) }

  /** What was enqueued is what arrived. */
  ghost predicate AcceptedOk(i: Intake, accepted: seq<Message>) {
    && |i.order| == |accepted|
    && forall p :: 0 <= p < |i.order| ==> i.order[p] < |i.arrived| && i.arrived[i.order[p]].m == accepted[p]
  }

  /** Every other arrival was enqueued or is in hand. */
  ghost predicate Complete(i: Intake) {
    forall n: nat :: n < |i.arrived| && !Late(i.arrived, n) ==> n in Order(i)
  }

  ghost predicate IntakeOk(i: Intake) { HandsOk(i) && PerRoute(i.arrived, Order(i)) && IgnoredOk(i) }

  ghost predicate Inv(s: State) {
    && Account(s) && Answers(s) && Short(s.accepted)
    && IntakeOk(s.intake) && AcceptedOk(s.intake, s.accepted)
    && (!s.cancelled ==> Complete(s.intake))
  }

  lemma LateStays(arrived: seq<Arrival>, a: Arrival, n: nat)
    requires n < |arrived|
    ensures Late(arrived + [a], n) <==> Late(arrived, n)
  {
    if Late(arrived, n) {
      var j :| 0 <= j < n && arrived[j].route.Relayed?;
      assert (arrived + [a])[j].route.Relayed?;
    }
  }

  lemma PerRouteStays(arrived: seq<Arrival>, a: Arrival, o: seq<nat>)
    requires PerRoute(arrived, o)
    ensures PerRoute(arrived + [a], o)
  {
    forall p | 0 <= p < |o| ensures !Late(arrived + [a], o[p]) { LateStays(arrived, a, o[p]); }
  }

  /** The latest arrival stands behind all others. */
  lemma PerRouteGrows(arrived: seq<Arrival>, a: Arrival, o: seq<nat>)
    requires PerRoute(arrived, o) && !Late(arrived + [a], |arrived|)
    ensures PerRoute(arrived + [a], o + [|arrived|])
  {
    PerRouteStays(arrived, a, o);
  }

  lemma NewIsLate(i: Intake, a: Arrival)
    requires HandsOk(i)
    ensures Late(i.arrived + [a], |i.arrived|) <==> i.relay && a.route.Channel?
  {
    var all := i.arrived + [a];
    if i.relay {
      var j :| 0 <= j < |i.arrived| && i.arrived[j].route.Relayed?;
      assert all[j].route.Relayed?;
    }
  }

  lemma HandsStay(i: Intake, a: Arrival, t: Intake)
    requires HandsOk(i) && t.arrived == i.arrived + [a] && t.relay == (i.relay || a.route.Relayed?)
    requires t.onChannel == i.onChannel || (a.route.Channel? && t.onChannel == Some(|i.arrived|))
    requires t.onRelay == i.onRelay || (a.route.Relayed? && t.onRelay == Some(|i.arrived|))
    ensures HandsOk(t)
  {
    if i.relay {
      var j :| 0 <= j < |i.arrived| && i.arrived[j].route.Relayed?;
      assert t.arrived[j].route.Relayed?;
    } else if a.route.Relayed? {
      assert t.arrived[|i.arrived|].route.Relayed?;
    }
  }

  lemma IgnoredStays(i: Intake, a: Arrival, t: Intake)
    requires HandsOk(i) && IgnoredOk(i) && t.arrived == i.arrived + [a]
    requires t.ignored == i.ignored + (if i.relay && a.route.Channel? then [|i.arrived|] else [])
    ensures IgnoredOk(t)
  {
    NewIsLate(i, a);
    forall n: nat ensures n in t.ignored <==> Late(t.arrived, n) {
      assert n in i.ignored <==> Late(i.arrived, n);
      if n < |i.arrived| { LateStays(i.arrived, a, n); }
    }
  }

  lemma CompleteStays(i: Intake, a: Arrival, t: Intake)
    requires HandsOk(i) && Complete(i) && t.arrived == i.arrived + [a]
    requires forall n :: n in Order(i) ==> n in Order(t)
    requires (i.relay && a.route.Channel?) || |i.arrived| in Order(t)
    ensures Complete(t)
  {
    NewIsLate(i, a);
    forall n: nat | n < |t.arrived| && !Late(t.arrived, n) ensures n in Order(t) {
      if n < |i.arrived| { LateStays(i.arrived, a, n); }
    }
  }

  lemma AcceptedStays(i: Intake, a: Arrival, t: Intake, accepted: seq<Message>)
    requires AcceptedOk(i, accepted) && t.arrived == i.arrived + [a] && t.order == i.order
    ensures AcceptedOk(t, accepted)
  {
  }

  lemma TestKeepsIntake(i: Intake, m: Message, accepted: seq<Message>)
    requires IntakeOk(i) && AcceptedOk(i, accepted)
    ensures IntakeOk(Tested(i, m)) && AcceptedOk(Tested(i, m), accepted)
    ensures Complete(i) ==> Complete(Tested(i, m))
  {
    if i.onChannel.None? {
      var a, t := Arrival(m, Channel), Tested(i, m);
      HandsStay(i, a, t);
      IgnoredStays(i, a, t);
      AcceptedStays(i, a, t, accepted);
      NewIsLate(i, a);
      if i.relay {
        assert Order(t) == Order(i);
        PerRouteStays(i.arrived, a, Order(i));
      } else {
        NoRelayYet(i);
        assert Order(t) == Order(i) + [|i.arrived|];
        PerRouteGrows(i.arrived, a, Order(i));
      }
      if Complete(i) { CompleteStays(i, a, t); }
    }
  }

  lemma NoRelayYet(i: Intake)
    requires HandsOk(i) && !i.relay
    ensures i.onRelay.None?
  {
  }

  lemma SwitchKeepsIntake(i: Intake, m: Message, accepted: seq<Message>)
    requires IntakeOk(i) && AcceptedOk(i, accepted)
    ensures IntakeOk(Switched(i, m)) && AcceptedOk(Switched(i, m), accepted)
    ensures Complete(i) ==> Complete(Switched(i, m))
  {
    if i.onRelay.None? {
      var a, t := Arrival(m, Relayed), Switched(i, m);
      HandsStay(i, a, t);
      IgnoredStays(i, a, t);
      AcceptedStays(i, a, t, accepted);
      NewIsLate(i, a);
      assert Order(t) == Order(i) + [|i.arrived|];
      PerRouteGrows(i.arrived, a, Order(i));
      if Complete(i) { CompleteStays(i, a, t); }
    }
  }

  /** The message in hand, and the intake once it is enqueued, or not. */
  function Entered(i: Intake, route: Route, n: nat): Intake {
    Released(i, route).(order := i.order + [n])
  }

  /** Enqueueing changes the order only by letting the relay overtake the channel. */
  lemma OrderEntered(i: Intake, route: Route, n: nat)
    requires HandOf(i, route) == Some(n)
    ensures Order(Entered(i, route, n)) ==
      if route.Relayed? && i.onChannel.Some? then i.order + [n, i.onChannel.value] else Order(i)
    ensures i.onChannel.Some? && i.onRelay.Some? ==> Order(i) == i.order + [i.onChannel.value, i.onRelay.value]
  {
  }

  lemma EnterKeepsIntake(i: Intake, route: Route, n: nat, accepted: seq<Message>)
    requires IntakeOk(i) && AcceptedOk(i, accepted) && HandOf(i, route) == Some(n) && n < |i.arrived|
    ensures IntakeOk(Entered(i, route, n)) && AcceptedOk(Entered(i, route, n), accepted + [i.arrived[n].m])
    ensures Complete(i) ==> Complete(Entered(i, route, n))
  {
    EnterKeepsOrder(i, route, n);
    EnterKeepsHands(i, route, n);
    EnterKeepsAccepted(i, route, n, accepted);
  }

  lemma EnterKeepsHands(i: Intake, route: Route, n: nat)
    requires HandsOk(i) && IgnoredOk(i)
    ensures HandsOk(Entered(i, route, n)) && IgnoredOk(Entered(i, route, n))
  {
  }

  lemma EnterKeepsAccepted(i: Intake, route: Route, n: nat, accepted: seq<Message>)
    requires AcceptedOk(i, accepted) && n < |i.arrived|
    ensures AcceptedOk(Entered(i, route, n), accepted + [i.arrived[n].m])
  {
  }

  lemma EnterKeepsOrder(i: Intake, route: Route, n: nat)
    requires HandsOk(i) && PerRoute(i.arrived, Order(i)) && HandOf(i, route) == Some(n)
    ensures PerRoute(i.arrived, Order(Entered(i, route, n)))
    ensures forall k :: k in Order(Entered(i, route, n)) <==> k in Order(i)
  {
    OrderEntered(i, route, n);
    if route.Relayed? && i.onChannel.Some? { SwapsRoutes(i.arrived, i.order, i.onChannel.value, n); }
  }

  /** Arrivals of different routes may change places. */
  lemma SwapsRoutes(arrived: seq<Arrival>, o: seq<nat>, c: nat, r: nat)
    requires c < |arrived| && r < |arrived| && arrived[c].route != arrived[r].route
    requires PerRoute(arrived, o + [c, r])
    ensures PerRoute(arrived, o + [r, c])
    ensures forall n :: n in o + [c, r] <==> n in o + [r, c]
  {
    var a, b := o + [c, r], o + [r, c];
    forall p | 0 <= p < |b| ensures b[p] < |arrived| && !Late(arrived, b[p]) {
      assert b[p] == if p < |o| then a[p] else a[2 * |o| + 1 - p];
    }
    forall p, q | 0 <= p < q < |b| && arrived[b[p]].route == arrived[b[q]].route ensures b[p] < b[q] {
      var q' := if q < |o| then q else 2 * |o| + 1 - q;
      assert p < |o|;
      assert a[p] == b[p] && a[q'] == b[q];
    }
  }

  lemma ReleaseKeepsIntake(i: Intake, route: Route, accepted: seq<Message>)
    requires IntakeOk(i) && AcceptedOk(i, accepted)
    ensures IntakeOk(Released(i, route)) && AcceptedOk(Released(i, route), accepted)
  {
    var o, t := Order(i), Order(Released(i, route));
    if i.onChannel.Some? && i.onRelay.Some? && route.Channel? {
      assert o == i.order + [i.onChannel.value, i.onRelay.value] && t == i.order + [i.onRelay.value];
      forall p | 0 <= p < |t| ensures t[p] == o[if p < |i.order| then p else p + 1] { }
    } else {
      assert t <= o;
    }
  }

  // ---- what every event keeps ----

  lemma ResultsOneMore(wire: seq<Sent>, x: Sent)
    ensures Results(wire + [x]) == Results(wire) + (if x.Result? then [x] else [])
  {
    assert (wire + [x])[..|wire|] == wire;
  }

  lemma EnqueueAccount(s: State, m: Message, i: Intake)
    requires Account(s) && |s.queue| < QUEUE
    ensures Account(s.(intake := i, queue := s.queue + [m], accepted := s.accepted + [m]))
  {
  }

  /** The message in hand has gone into the queue. */
  ghost predicate Entering(s: State, t: State, route: Route, n: nat) {
    && n < |s.intake.arrived| && |s.queue| < QUEUE && s.intake.arrived[n].m.length <= LONGEST
    && t == s.(intake := Entered(s.intake, route, n), queue := s.queue + [s.intake.arrived[n].m],
               accepted := s.accepted + [s.intake.arrived[n].m])
  }

  lemma EnqueueCases(s: State, route: Route, lucky: bool)
    ensures var t, hand := Enqueue(s, route, lucky), HandOf(s.intake, route);
      || t == s
      || (hand.Some? && Entering(s, t, route, hand.value))
      || t == s.(intake := Released(s.intake, route), cancelled := true)
  {
  }

  lemma EnteringKeeps(s: State, t: State, route: Route, n: nat)
    requires Inv(s) && Entering(s, t, route, n) && HandOf(s.intake, route) == Some(n)
    ensures Inv(t)
  {
    EnterKeepsIntake(s.intake, route, n, s.accepted);
    EnqueueAccount(s, s.intake.arrived[n].m, t.intake);
  }

  lemma EnqueueKeeps(s: State, route: Route, lucky: bool)
    requires Inv(s)
    ensures Inv(Enqueue(s, route, lucky))
  {
    var t, hand := Enqueue(s, route, lucky), HandOf(s.intake, route);
    EnqueueCases(s, route, lucky);
    if hand.Some? && Entering(s, t, route, hand.value) {
      EnteringKeeps(s, t, route, hand.value);
    } else {
      ReleaseKeepsIntake(s.intake, route, s.accepted);
    }
  }

  /** A message leaves the queue for the goroutine's hand. */
  lemma TakeAccount(s: State)
    requires Account(s) && s.runner.Idle? && s.queue != []
    ensures Account(s.(runner := Parsing(s.queue[0]), queue := s.queue[1..]))
  {
    var front := Messages(s.handled) + s.lost;
    assert s.lost == [] && s.queue == [s.queue[0]] + s.queue[1..];
    assert front + [] + s.queue == front + [s.queue[0]] + s.queue[1..];
  }

  /** The goroutine gives up what it has in hand. */
  lemma GiveUpAccount(s: State, m: Message)
    requires Account(s) && InHand(s.runner) == [m]
    ensures Account(s.(runner := Exited, cancelled := true, lost := s.lost + [m]))
  {
    assert s.lost == [];
    assert Messages(s.handled) + [] + [m] + s.queue == Messages(s.handled) + [m] + [] + s.queue;
  }

  lemma SentAccount(s: State, h: Handled)
    requires Account(s) && s.runner == Sending(h.m, h.outcome)
    ensures Account(s.(runner := Idle, handled := s.handled + [h]))
  {
    assert s.lost == [] && InHand(s.runner) == [h.m];
    var before, after := Messages(s.handled), Messages(s.handled + [h]);
    assert after == before + [h.m];
    assert before + [] + [h.m] + s.queue == after + [] + [] + s.queue;
  }

  lemma OneMoreAnswer(wire: seq<Sent>, hs: seq<Handled>, h: Handled)
    requires Results(wire) == ResultsOf(hs)
    ensures Results(wire + [ResultOf(h)]) == ResultsOf(hs + [h])
  {
    ResultsOneMore(wire, ResultOf(h));
    assert ResultsOf(hs + [h]) == ResultsOf(hs) + [ResultOf(h)];
  }

  lemma SentAnswers(s: State, h: Handled)
    requires Answers(s) && h.m.request.Some?
    ensures Answers(s.(runner := Idle, wire := s.wire + [ResultOf(h)], handled := s.handled + [h]))
  {
    OneMoreAnswer(s.wire, s.handled, h);
  }

  /** Events other than the arrivals leave the intake alone. */
  lemma RunnerFrame(s: State, e: Event)
    ensures var t := RunnerStep(s, e);
      t.intake == s.intake && t.accepted == s.accepted && (s.cancelled ==> t.cancelled)
  {
  }

  lemma RunnerAccount(s: State, e: Event)
    requires Account(s)
    ensures Account(RunnerStep(s, e))
  {
    var r := s.runner;
    match e {
      case Takes => if r.Idle? && s.queue != [] { TakeAccount(s); }
      case Parses => if r.Parsing? && r.m.request.None? { GiveUpAccount(s, r.m); }
      case Sends(ok) =>
        if r.Sending? {
          if ok { SentAccount(s, Handled(r.m, r.outcome)); } else { GiveUpAccount(s, r.m); }
        }
      case _ =>
    }
  }

  lemma RunnerAnswers(s: State, e: Event)
    requires Answers(s)
    ensures Answers(RunnerStep(s, e))
  {
    var r := s.runner;
    match e {
      case Sends(ok) => if r.Sending? && ok { SentAnswers(s, Handled(r.m, r.outcome)); }
      case TerminalSends(data) => TerminalAnswers(s.wire, data);
      case _ =>
    }
  }

  lemma TerminalAnswers(wire: seq<Sent>, data: int)
    ensures Results(wire + [Terminal(data)]) == Results(wire)
  {
    ResultsOneMore(wire, Terminal(data));
  }

  lemma StepKeeps(s: State, e: Event)
    requires Inv(s)
    ensures Inv(Step(s, e))
  {
    match e {
      case Tests(m) => TestKeepsIntake(s.intake, m, s.accepted);
      case Switches(m) => SwitchKeepsIntake(s.intake, m, s.accepted);
      case Enqueues(route, lucky) => EnqueueKeeps(s, route, lucky);
      case _ =>
        RunnerFrame(s, e);
        RunnerAccount(s, e);
        RunnerAnswers(s, e);
    }
  }

  lemma {:induction false} RunKeeps(s: State, events: seq<Event>)
    requires Inv(s)
    ensures Inv(ExecFrom(s, events))
    decreases |events|
  {
    if events != [] {
      StepKeeps(s, events[0]);
      RunKeeps(Step(s, events[0]), events[1..]);
    }
  }

  lemma InitialInv()
    ensures Inv(INITIAL)
  {
  }

  lemma ExecKeeps(events: seq<Event>)
    ensures Inv(Exec(events))
  {
    InitialInv();
    RunKeeps(INITIAL, events);
  }

  // ---- every run ----

  /** At most 64 messages wait, none longer than 64 KiB; the messages accepted are those
      handled, then at most one in the goroutine's hand or given up by it, then those
      queued; and the results sent are one for each handled request, in order of acceptance,
      with its id and outcome, whatever terminal output goes out in between. */
  lemma EveryRunKeepsAccount(events: seq<Event>)
    ensures var s := Exec(events);
      && |s.queue| <= 64
      && s.accepted == Messages(s.handled) + s.lost + InHand(s.runner) + s.queue
      && |s.lost| + |InHand(s.runner)| <= 1
      && (!s.cancelled ==> s.lost == [])
      && Results(s.wire) == ResultsOf(s.handled)
      && forall i :: 0 <= i < |s.accepted| ==> s.accepted[i].length <= 65536
  {
    ExecKeeps(events);
  }

  // ---- what is lost, told from what arrives ----

  /** In a run that ends uncancelled, exactly the messages are lost that came over the data
      channel after one over the relay: every other one is enqueued, once, or in hand. So nothing
      is lost if and only if no message over the channel comes after one over the relay. */
  lemma UntilCancelledNothingIsLost(events: seq<Event>)
    requires !Exec(events).cancelled
    ensures var s := Exec(events);
      && OnlyLateIsLost(s.intake) && NoRepeats(Order(s.intake)) && AcceptedOk(s.intake, s.accepted)
      && (s.intake.ignored == [] <==> forall n: nat :: !Late(s.intake.arrived, n))
  {
    ExecKeeps(events);
    OnTime(Exec(events).intake);
  }

  /** An arrival was enqueued or is in hand if and only if it is not late, and dropped if it is. */
  ghost predicate OnlyLateIsLost(i: Intake) {
    && (forall n: nat :: n < |i.arrived| ==> (n in Order(i) <==> !Late(i.arrived, n)))
    && (forall n: nat :: n in i.ignored <==> Late(i.arrived, n))
  }

  ghost predicate NoRepeats(o: seq<nat>) { forall p, q :: 0 <= p < q < |o| ==> o[p] != o[q] }

  lemma OnTime(i: Intake)
    requires IntakeOk(i) && Complete(i)
    ensures OnlyLateIsLost(i) && NoRepeats(Order(i))
    ensures i.ignored == [] <==> forall n: nat :: !Late(i.arrived, n)
  {
    var o := Order(i);
    if i.ignored != [] { assert i.ignored[0] in i.ignored; }
    forall n: nat | n in o ensures !Late(i.arrived, n) {
      var p :| 0 <= p < |o| && o[p] == n;
    }
    forall p, q | 0 <= p < q < |o| ensures o[p] != o[q] {
      assert i.arrived[o[p]].route == i.arrived[o[q]].route ==> o[p] < o[q];
    }
  }

  // ---- the order of acceptance ----

  ghost predicate Increasing(o: seq<nat>) { forall p, q :: 0 <= p < q < |o| ==> o[p] < o[q] }

  /** A relayed message is enqueued while an earlier one is between the lock and the queue. */
  predicate Overtakes(s: State, e: Event) {
    e.Enqueues? && e.route.Relayed? && s.intake.onRelay.Some? && s.intake.onChannel.Some?
  }

  ghost predicate NoneOvertakes(s: State, events: seq<Event>)
    decreases |events|
  {
    events == [] || (!Overtakes(s, events[0]) && NoneOvertakes(Step(s, events[0]), events[1..]))
  }

  lemma IncreasingGrows(arrived: seq<Arrival>, o: seq<nat>)
    requires PerRoute(arrived, o)
    ensures Increasing(o + [|arrived|]) <==> Increasing(o)
  {
    var t := o + [|arrived|];
    if Increasing(t) {
      forall p, q | 0 <= p < q < |o| ensures o[p] < o[q] { assert t[p] < t[q]; }
    }
  }

  /** In hand, the message of the channel is the earlier one. */
  lemma ChannelIsEarlier(i: Intake)
    requires IntakeOk(i) && i.onChannel.Some? && i.onRelay.Some?
    ensures i.onChannel.value < i.onRelay.value
  {
    var o := Order(i);
    assert o[|i.order|] == i.onChannel.value;
    assert !Late(i.arrived, i.onChannel.value);
  }

  lemma OvertakingSpoils(i: Intake)
    requires IntakeOk(i) && i.onChannel.Some? && i.onRelay.Some?
    ensures !Increasing(Order(Entered(i, Relayed, i.onRelay.value)))
  {
    ChannelIsEarlier(i);
    var o := Order(Entered(i, Relayed, i.onRelay.value));
    OrderEntered(i, Relayed, i.onRelay.value);
    assert o[|i.order|] == i.onRelay.value && o[|i.order| + 1] == i.onChannel.value;
  }

  /** An event spoils the order exactly if a relayed message overtakes one of the channel. */
  lemma StepOrder(s: State, e: Event)
    requires Inv(s) && !Step(s, e).cancelled
    ensures Increasing(Order(Step(s, e).intake)) <==> Increasing(Order(s.intake)) && !Overtakes(s, e)
  {
    var i := s.intake;
    match e {
      case Tests(m) =>
        if i.onChannel.None? && !i.relay {
          NoRelayYet(i);
          assert Order(Tested(i, m)) == Order(i) + [|i.arrived|];
          IncreasingGrows(i.arrived, Order(i));
        }
      case Switches(m) =>
        if i.onRelay.None? {
          assert Order(Switched(i, m)) == Order(i) + [|i.arrived|];
          IncreasingGrows(i.arrived, Order(i));
        }
      case Enqueues(route, lucky) => EnqueueOrder(s, route, lucky);
      case _ => RunnerFrame(s, e);
    }
  }

  lemma EnqueueOrder(s: State, route: Route, lucky: bool)
    requires Inv(s) && !Enqueue(s, route, lucky).cancelled
    ensures Increasing(Order(Enqueue(s, route, lucky).intake)) <==>
      Increasing(Order(s.intake)) && !Overtakes(s, Enqueues(route, lucky))
  {
    var i, hand := s.intake, HandOf(s.intake, route);
    if hand.Some? {
      assert Enqueue(s, route, lucky).intake == Entered(i, route, hand.value);
      OrderEntered(i, route, hand.value);
      if route.Relayed? && i.onChannel.Some? { OvertakingSpoils(i); }
    }
  }

  lemma {:induction false} CancelledStays(s: State, events: seq<Event>)
    requires s.cancelled
    ensures ExecFrom(s, events).cancelled
    decreases |events|
  {
    if events != [] {
      RunnerFrame(s, events[0]);
      CancelledStays(Step(s, events[0]), events[1..]);
    }
  }

  lemma {:induction false} RunOrder(s: State, events: seq<Event>)
    requires Inv(s) && !ExecFrom(s, events).cancelled
    ensures Increasing(Order(ExecFrom(s, events).intake)) <==> Increasing(Order(s.intake)) && NoneOvertakes(s, events)
    decreases |events|
  {
    if events != [] {
      var t := Step(s, events[0]);
      if t.cancelled { CancelledStays(t, events[1..]); }
      StepKeeps(s, events[0]);
      StepOrder(s, events[0]);
      RunOrder(t, events[1..]);
    }
  }

  /** In a run that ends uncancelled, messages were enqueued in the order of their arrival if and
      only if no relayed one was enqueued while one of the channel was on its way from the
      lock to the queue. */
  lemma OrderIsKept(events: seq<Event>)
    requires !Exec(events).cancelled
    ensures Increasing(Order(Exec(events).intake)) <==> NoneOvertakes(INITIAL, events)
  {
    InitialInv();
    RunOrder(INITIAL, events);
  }

  // ---- every message is dealt with ----

  lemma FirstEvent(s: State, e: Event, rest: seq<Event>)
    ensures ExecFrom(s, [e] + rest) == ExecFrom(Step(s, e), rest)
  {
    assert ([e] + rest)[1..] == rest;
  }

  lemma TwoEvents(s: State, e: Event, f: Event)
    ensures ExecFrom(s, [e, f]) == Step(Step(s, e), f)
  {
    FirstEvent(Step(s, e), f, []);
    FirstEvent(s, e, [f]);
    assert [f] + [] == [f] && [e] + [f] == [e, f];
  }

  /** A message over the relay, or over the data channel before the switch, is queued last if it has at
      most 64 KiB and finds less than 64 waiting; otherwise the session is cancelled. */
  lemma MessageIsQueued(before: seq<Event>, route: Route, m: Message, lucky: bool)
    requires var s := Exec(before);
      !s.cancelled && HandOf(s.intake, route).None? && (route.Channel? ==> !s.intake.relay)
    ensures var s, room := Exec(before), m.length <= 65536 && |Exec(before).queue| < 64;
      ExecFrom(s, [if route.Channel? then Tests(m) else Switches(m), Enqueues(route, lucky)])
      == s.(intake := s.intake.(
              relay := s.intake.relay || route.Relayed?,
              arrived := s.intake.arrived + [Arrival(m, route)],
              order := s.intake.order + (if room then [|s.intake.arrived|] else [])),
            queue := s.queue + (if room then [m] else []), accepted := s.accepted + (if room then [m] else []),
            cancelled := !room)
  {
    var s := Exec(before);
    var n := |s.intake.arrived|;
    TwoEvents(s, if route.Channel? then Tests(m) else Switches(m), Enqueues(route, lucky));
    assert (s.intake.arrived + [Arrival(m, route)])[n] == Arrival(m, route);
    var i := s.intake.(arrived := s.intake.arrived + [Arrival(m, route)], relay := s.intake.relay || route.Relayed?);
    assert Step(s, if route.Channel? then Tests(m) else Switches(m)) ==
      s.(intake := if route.Channel? then i.(onChannel := Some(n)) else i.(onRelay := Some(n)));
  }

  /** The oldest request in the queue gets its one result, whatever it comes to, and nothing else
      changes. */
  lemma OldestIsAnswered(before: seq<Event>, outcome: Outcome)
    requires var s := Exec(before);
      s.runner.Idle? && s.queue != [] && s.queue[0].request.Some?
    ensures var s := Exec(before);
      var m := s.queue[0];
      ExecFrom(ExecFrom(s, [Takes, Parses]), [Handles(outcome), Sends(true)])
      == s.(queue := s.queue[1..], wire := s.wire + [Result(m.request.value.id, outcome)],
            handled := s.handled + [Handled(m, outcome)])
  {
    var s := Exec(before);
    TwoEvents(s, Takes, Parses);
    TwoEvents(Step(Step(s, Takes), Parses), Handles(outcome), Sends(true));
    assert Step(Step(s, Takes), Parses) == s.(queue := s.queue[1..], runner := Handling(s.queue[0]));
  }

  /** A message that is no request ends the session. */
  lemma MalformedEndsSession(before: seq<Event>)
    requires var s := Exec(before);
      s.runner.Idle? && s.queue != [] && s.queue[0].request.None?
    ensures var s := Exec(before);
      ExecFrom(s, [Takes, Parses])
      == s.(queue := s.queue[1..], runner := Exited, cancelled := true, lost := s.lost + [s.queue[0]])
  {
    TwoEvents(Exec(before), Takes, Parses);
  }

  /** Terminal output goes out between two results and leaves them as they are. */
  lemma TerminalComesBetween(before: seq<Event>, data: int, outcome: Outcome)
    requires Exec(before).runner.Handling?
    ensures var s := Exec(before);
      var m := s.runner.m;
      m.request.Some? &&
      ExecFrom(s, [TerminalSends(data)] + [Handles(outcome), Sends(true)])
      == s.(wire := s.wire + [Terminal(data)] + [Result(m.request.value.id, outcome)], runner := Idle,
            handled := s.handled + [Handled(m, outcome)])
  {
    var s := Exec(before);
    ExecKeeps(before);
    FirstEvent(s, TerminalSends(data), [Handles(outcome), Sends(true)]);
    TwoEvents(Step(s, TerminalSends(data)), Handles(outcome), Sends(true));
  }

  /** A session that is cancelled while its goroutine waits ends, and a result that cannot be written ends
      it too. */
  lemma CancelEndsSession(before: seq<Event>, outcome: Outcome)
    ensures var s := Exec(before);
      && (s.runner.Idle? ==> ExecFrom(s, [Cancel, Exits]) == s.(cancelled := true, runner := Exited))
      && (s.runner.Handling? ==>
           ExecFrom(s, [Handles(outcome), Sends(false)])
           == s.(cancelled := true, runner := Exited, lost := s.lost + [s.runner.m]))
  {
    var s := Exec(before);
    ExecKeeps(before);
    TwoEvents(s, Cancel, Exits);
    TwoEvents(s, Handles(outcome), Sends(false));
  }

  // ---- both happen ----

  /** The silent loss: a message that was sent over the data channel and arrives after a relayed
      one is dropped, and the session goes on. */
  lemma LateChannelMessageIsDropped(a: Message, b: Message)
    requires a.length <= LONGEST
    ensures var s := Exec([Switches(a)] + ([Enqueues(Relayed, true)] + ([Tests(b)] + [])));
      !s.cancelled && s.intake.arrived == [Arrival(a, Relayed), Arrival(b, Channel)]
      && s.accepted == [a] && s.intake.ignored == [1]
  {
    var s1 := Step(INITIAL, Switches(a));
    var s2 := Step(s1, Enqueues(Relayed, true));
    FirstEvent(s2, Tests(b), []);
    FirstEvent(s1, Enqueues(Relayed, true), [Tests(b)] + []);
    FirstEvent(INITIAL, Switches(a), [Enqueues(Relayed, true)] + ([Tests(b)] + []));
  }

  /** The overtaking: a message over the data channel finds the route free, a relayed one switches
      it and is enqueued, and only then is the first enqueued. Nothing is lost. */
  lemma RelayOvertakes(a: Message, b: Message)
    requires a.length <= LONGEST && b.length <= LONGEST
    ensures var rest := [Enqueues(Relayed, true)] + ([Enqueues(Channel, true)] + []);
      var s := Exec([Tests(a)] + ([Switches(b)] + rest));
      !s.cancelled && s.intake.arrived == [Arrival(a, Channel), Arrival(b, Relayed)]
      && s.queue == s.accepted == [b, a] && s.intake.ignored == []
  {
    var s1 := Step(INITIAL, Tests(a));
    var s2 := Step(s1, Switches(b));
    var s3 := Step(s2, Enqueues(Relayed, true));
    var e3 := [Enqueues(Channel, true)] + [];
    var e2 := [Enqueues(Relayed, true)] + e3;
    var e1 := [Switches(b)] + e2;
    FirstEvent(s3, Enqueues(Channel, true), []);
    FirstEvent(s2, Enqueues(Relayed, true), e3);
    FirstEvent(s1, Switches(b), e2);
    FirstEvent(INITIAL, Tests(a), e1);
  }

  // ---- the session object ----

  /** What the goroutine's steps do, apart from what they keep. */
  lemma NextSteps(s: State)
    requires s.runner.Idle? && s.queue != []
    ensures var t, msg := Step(Step(s, Takes), Parses), s.queue[0];
      && t.intake == s.intake && t.queue == s.queue[1..] && t.wire == s.wire
      && t.runner == (if msg.request.Some? then Handling(msg) else Exited)
      && t.cancelled == (s.cancelled || msg.request.None?)
  {
  }

  lemma AnswerSteps(s: State, msg: Message, outcome: Outcome, sends: bool)
    requires s.runner == Handling(msg) && msg.request.Some?
    ensures var t := Step(Step(s, Handles(outcome)), Sends(sends));
      && t.intake == s.intake && t.queue == s.queue
      && t.wire == s.wire + (if sends then [Result(msg.request.value.id, outcome)] else [])
      && t.runner == (if sends then Idle else Exited) && t.cancelled == (s.cancelled || !sends)
  {
  }

  lemma AcceptStep(s: State, msg: Message, route: Route, lucky: bool)
    requires var hand := HandOf(s.intake, route);
      hand.Some? && hand.value < |s.intake.arrived| && s.intake.arrived[hand.value].m == msg
    ensures var t := Step(s, Enqueues(route, lucky));
      var room := msg.length <= LONGEST && |s.queue| < QUEUE && (!s.cancelled || lucky);
      && t.intake.relay == s.intake.relay && t.queue == s.queue + (if room then [msg] else [])
      && t.cancelled == (s.cancelled || !room)
  {
  }

  lemma TwoStepsKeep(s: State, e: Event, f: Event)
    requires Inv(s)
    ensures Inv(Step(Step(s, e), f))
  {
    StepKeeps(s, e);
    StepKeeps(Step(s, e), f);
  }

  class Session {
    var relay: bool
    var cancelled: bool
    var queue: seq<Message>
    ghost var m: State

    ghost predicate Valid() reads this {
      m.intake.relay == relay && m.cancelled == cancelled && m.queue == queue && Inv(m)
    }

    constructor ()
      ensures Valid() && m == INITIAL
    {
      relay, cancelled, queue := false, false, [];
      m := INITIAL;
    }

    /** The first half of a relayed message: under the lock, the session switches to the relay for
        good. */
    method Switch(ghost msg: Message)
      requires Valid() && m.intake.onRelay.None?
      modifies this
      ensures Valid() && m == Step(old(m), Switches(msg))
      ensures relay && queue == old(queue) && cancelled == old(cancelled)
      ensures Holds(msg, Relayed)
    {
      StepKeeps(m, Switches(msg));
      m := Step(m, Switches(msg));
      relay := true;
    }

    /** The first half of a message over the data channel: under the lock, does it still count? */
    method Test(ghost msg: Message) returns (counts: bool)
      requires Valid() && m.intake.onChannel.None?
      modifies this
      ensures Valid() && m == Step(old(m), Tests(msg))
      ensures counts == !relay && relay == old(relay) && queue == old(queue) && cancelled == old(cancelled)
      ensures if counts then Holds(msg, Channel) else m.intake.onChannel.None?
    {
      StepKeeps(m, Tests(msg));
      m := Step(m, Tests(msg));
      counts := !relay;
    }

    /** The goroutine of this route has the message between the lock and the queue. */
    ghost predicate Holds(msg: Message, route: Route) reads this {
      var hand := HandOf(m.intake, route);
      hand.Some? && hand.value < |m.intake.arrived| && m.intake.arrived[hand.value].m == msg
    }

    /** The second half of both: the select that enqueues or cancels. */
    method Accept(msg: Message, ghost route: Route, lucky: bool)
      requires Valid() && Holds(msg, route)
      modifies this
      ensures Valid() && m == Step(old(m), Enqueues(route, lucky)) && relay == old(relay)
      ensures
        var room := msg.length <= 65536 && |old(queue)| < 64 && (!old(cancelled) || lucky);
        && queue == old(queue) + (if room then [msg] else [])
        && (cancelled <==> old(cancelled) || !room)
    {
      AcceptStep(m, msg, route, lucky);
      StepKeeps(m, Enqueues(route, lucky));
      m := Step(m, Enqueues(route, lucky));
      if msg.length > LONGEST {
        cancelled := true;
        return;
      }
      if |queue| < QUEUE && (!cancelled || lucky) {
        queue := queue + [msg];
      } else {
        cancelled := true;
      }
    }

    /** Take the next message and parse it. */
    method Next() returns (msg: Message)
      requires Valid() && m.runner.Idle? && queue != []
      modifies this
      ensures Valid() && msg == old(queue)[0] && queue == old(queue)[1..]
      ensures relay == old(relay) && m.wire == old(m.wire)
      ensures msg.request.Some? ==> m.runner == Handling(msg) && cancelled == old(cancelled)
      ensures msg.request.None? ==> m.runner.Exited? && cancelled
    {
      NextSteps(m);
      TwoStepsKeep(m, Takes, Parses);
      m := Step(Step(m, Takes), Parses);
      msg := queue[0];
      queue := queue[1..];
      if msg.request.None? {
        cancelled := true;
      }
    }

    /** Send the result of the request that was handled. */
    method Answer(msg: Message, outcome: Outcome, sends: bool)
      requires Valid() && m.runner == Handling(msg) && msg.request.Some?
      modifies this
      ensures Valid() && queue == old(queue) && relay == old(relay)
      ensures sends ==> m.runner.Idle? && cancelled == old(cancelled)
      ensures sends ==> m.wire == old(m.wire) + [Result(msg.request.value.id, outcome)]
      ensures !sends ==> m.runner.Exited? && cancelled && m.wire == old(m.wire)
    {
      AnswerSteps(m, msg, outcome, sends);
      TwoStepsKeep(m, Handles(outcome), Sends(sends));
      m := Step(Step(m, Handles(outcome)), Sends(sends));
      if !sends {
        cancelled := true;
      }
    }

    /** One round of the session's goroutine. `outcome` is what the operation returns and
        `sends` whether its result can be written. */
    method Round(outcome: Outcome, sends: bool) returns (goesOn: bool, sent: Option<Sent>)
      requires Valid() && m.runner.Idle? && queue != []
      modifies this
      ensures Valid() && queue == old(queue)[1..] && relay == old(relay)
      ensures goesOn <==> old(queue)[0].request.Some? && sends
      ensures sent == if goesOn then Some(Result(old(queue)[0].request.value.id, outcome)) else None
      ensures goesOn ==> m.runner.Idle? && m.wire == old(m.wire) + [sent.value] && cancelled == old(cancelled)
      ensures !goesOn ==> m.runner.Exited? && cancelled && m.wire == old(m.wire)
    {
      var msg := Next();
      if msg.request.None? {
        return false, None;
      }
      Answer(msg, outcome, sends);
      goesOn := sends;
      sent := if sends then Some(Result(msg.request.value.id, outcome)) else None;
    }
  }
}
