/** The limit of 32 browser sessions. A browser is counted in when its handler looks at the hub,
    and entered into the table later, in another critical section. */
module RemoteLimit {
  import opened Prelude
  import opened RemoteModel
  import opened RemoteServer
  import opened RemoteRouting

  /** The browser has passed the count and is not in the table yet. */
  ghost predicate Waiting(s: State, b: BConn) { b in s.tabs && s.tabs[b].phase.Admitted? }

  ghost predicate OneWaits(s: State) { forall b, c :: Waiting(s, b) && Waiting(s, c) ==> b == c }

  /** In the whole run at most one browser waits at a time. */
  ghost predicate OneAtATime(s: State, events: seq<Event>)
    decreases |events|
  {
    OneWaits(s) && (events == [] || OneAtATime(Step(s, events[0]), events[1..]))
  }

  ghost predicate Bounded(s: State) {
    |s.browsers| <= MAX_BROWSERS && forall b :: Waiting(s, b) ==> |s.browsers| < MAX_BROWSERS
  }

  /** The table does not grow, and nobody begins to wait. */
  ghost predicate Shrinks(s: State, t: State) {
    |t.browsers| <= |s.browsers| && forall b :: Waiting(t, b) ==> Waiting(s, b)
  }

  lemma BrowserShrinks(s: State, b: BConn, l: Link, e: Event)
    requires b in s.tabs && OfBrowser(e) && e.b == b
    ensures Shrinks(s, BrowserStep(s, b, l, e))
  {
    var t := BrowserStep(s, b, l, e);
    StepDelta(s, b, l, e);
    if t.browsers != s.browsers {
      assert t.browsers.Keys == s.browsers.Keys - {l.sid};
      FewerKeys(s.browsers, t.browsers);
    }
  }

  lemma FewerKeys(m: map<Sid, Entry>, n: map<Sid, Entry>)
    requires n.Keys <= m.Keys
    ensures |n| <= |m|
  {
    assert m.Keys == n.Keys + (m.Keys - n.Keys);
    assert |m.Keys| == |n.Keys| + |m.Keys - n.Keys|;
    assert |m| == |m.Keys| && |n| == |n.Keys|;
  }

  lemma ServerShrinks(s: State, a: AConn, c: Conn, e: Event)
    requires a in s.conns && OfServer(e)
    ensures Shrinks(s, ServerStep(s, a, c, e))
  {
    ServerFrame(s, a, c, e);
    assert forall b :: b in ServerStep(s, a, c, e).tabs.Keys <==> b in s.tabs.Keys;
  }

  lemma AgentShrinks(s: State, a: AConn, c: Conn, e: Event)
    requires a in s.conns && OfAgent(e)
    ensures Shrinks(s, AgentStep(s, a, c, e))
  {
    if e.AgentTakes? && c.down != [] { TakeFrame(s, a, c, e.ok); }
  }

  lemma OthersShrink(s: State, e: Event)
    requires !e.BrowserArrives? && !e.BrowserRegisters?
    ensures Shrinks(s, Step(s, e))
  {
    if OfServer(e) {
      if e.a in s.conns { ServerShrinks(s, e.a, s.conns[e.a], e); }
    } else if OfAgent(e) {
      if e.a in s.conns { AgentShrinks(s, e.a, s.conns[e.a], e); }
    } else if OfBrowser(e) {
      if e.b in s.tabs && e.b in s.hist.link { BrowserShrinks(s, e.b, s.hist.link[e.b], e); }
    }
  }

  lemma RegisterBounded(s: State, b: BConn, sid: Sid)
    requires Bounded(s) && OneWaits(s)
    ensures Bounded(Register(s, b, sid))
  {
    var t := Register(s, b, sid);
    if t != s {
      assert Waiting(s, b);
      forall c ensures !Waiting(t, c) { assert Waiting(s, c) ==> c == b; }
    }
  }

  lemma StepBounded(s: State, e: Event)
    requires Bounded(s) && OneWaits(s)
    ensures Bounded(Step(s, e))
  {
    if e.BrowserRegisters? { RegisterBounded(s, e.b, e.sid); }
    else if !e.BrowserArrives? { OthersShrink(s, e); }
  }

  lemma {:induction false} RunBounded(s: State, events: seq<Event>)
    requires Bounded(s) && OneAtATime(s, events)
    ensures Bounded(ExecFrom(s, events))
    decreases |events|
  {
    if events != [] {
      StepBounded(s, events[0]);
      RunBounded(Step(s, events[0]), events[1..]);
    }
  }

  /** The limit holds in every run in which no two browsers are between count and table at the
      same time. */
  lemma LimitHolds(events: seq<Event>)
    requires OneAtATime(INITIAL, events)
    ensures |Exec(events).browsers| <= 32
  {
    RunBounded(INITIAL, events);
  }

  // ---- a run over the limit ----

  lemma {:induction false} OneMore(s: State, events: seq<Event>, e: Event)
    ensures ExecFrom(s, events + [e]) == Step(ExecFrom(s, events), e)
    decreases |events|
  {
    if events == [] {
      assert [e][1..] == [] && [] + [e] == [e];
      assert ExecFrom(Step(s, e), []) == Step(s, e);
    } else {
      assert (events + [e])[1..] == events[1..] + [e];
      OneMore(Step(s, events[0]), events[1..], e);
    }
  }

  /** Browsers 0 to n - 1 are in the table, and k more have been counted in. */
  ghost predicate Filled(s: State, n: nat, k: nat) {
    && |s.browsers| == n
    && (forall b: BConn :: b in s.tabs <==> 0 <= b < n + k)
    && (forall b: BConn :: n <= b < n + k ==> s.tabs[b].phase.Admitted?)
    && (forall sid: Sid :: sid in s.browsers <==> 0 <= sid < n)
    && (forall sid: Sid :: sid in s.hist.owner <==> 0 <= sid < n)
  }

  lemma CountedIn(s: State, n: nat, k: nat)
    requires Filled(s, n, k) && n < MAX_BROWSERS
    ensures Filled(Arrive(s, n + k, CLOUD), n, k + 1)
  {
    var b := n + k;
    var agent := if CLOUD in s.agents then Some(s.agents[CLOUD]) else None;
    assert b !in s.tabs;
    assert Arrive(s, b, CLOUD) == s.(tabs := s.tabs[b := Tab(true, Admitted(CLOUD, agent))]);
    TabsFilled(s, n, k, Tab(true, Admitted(CLOUD, agent)));
  }

  lemma TabsFilled(s: State, n: nat, k: nat, tab: Tab)
    requires Filled(s, n, k) && tab.phase.Admitted?
    ensures Filled(s.(tabs := s.tabs[n + k := tab]), n, k + 1)
  {
  }

  lemma Counted(events: seq<Event>, n: nat, k: nat) returns (more: seq<Event>)
    requires Filled(Exec(events), n, k) && n < MAX_BROWSERS
    ensures Filled(Exec(more), n, k + 1)
  {
    more := events + [BrowserArrives(n + k, CLOUD)];
    OneMore(INITIAL, events, BrowserArrives(n + k, CLOUD));
    CountedIn(Exec(events), n, k);
  }

  lemma Entered(events: seq<Event>, n: nat, k: nat) returns (more: seq<Event>)
    requires Filled(Exec(events), n, k) && k > 0
    ensures Filled(Exec(more), n + 1, k - 1)
  {
    more := events + [BrowserRegisters(n, n)];
    OneMore(INITIAL, events, BrowserRegisters(n, n));
  }

  lemma {:induction false} Fills(n: nat) returns (events: seq<Event>)
    requires n <= MAX_BROWSERS
    ensures Filled(Exec(events), n, 0)
    decreases n
  {
    if n == 0 {
      events := [];
    } else {
      events := Fills(n - 1);
      events := Counted(events, n - 1, 0);
      events := Entered(events, n - 1, 1);
    }
  }

  /** With two browsers between count and table it does not: 31 are in it, two are counted in, and
      both are entered. */
  lemma LimitExceeded() returns (events: seq<Event>)
    ensures |Exec(events).browsers| == 33
  {
    events := Fills(31);
    events := Counted(events, 31, 0);
    events := Counted(events, 31, 1);
    events := Entered(events, 31, 2);
    events := Entered(events, 32, 1);
  }
}
