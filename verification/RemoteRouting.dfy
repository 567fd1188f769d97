/** What the agent's end and the browser handlers keep, and what follows for every run of all
    parties together. */
module RemoteRouting {
  import opened Prelude
  import opened RemoteModel
  import opened RemoteServer

  // ---- the agent's own end ----

  lemma TakeDown(h: History, a: AConn, c: Conn)
    requires ConnOk(h, a, c) && c.down != []
    ensures ConnOk(h, a, c.(down := c.down[1..]))
  {
    var n := c.(down := c.down[1..]);
    forall i | 0 <= i < |n.down| ensures DownOk(h, a, n.down[i]) { assert n.down[i] == c.down[i + 1]; }
  }

  lemma QueueUp(h: History, a: AConn, c: Conn, m: Msg)
    requires ConnOk(h, a, c) && UpOk(h, a, m)
    ensures ConnOk(h, a, c.(up := c.up + [m]))
  {
    var n := c.(up := c.up + [m]);
    forall i | 0 <= i < |n.up| ensures UpOk(h, a, n.up[i]) {
      if i < |c.up| { assert n.up[i] == c.up[i]; }
    }
  }

  lemma OpenSession(h: History, a: AConn, c: Conn, sid: Sid, b: BConn)
    requires ConnOk(h, a, c) && Bound(h, a, sid, b) && sid !in c.sessions && |c.sessions| < MAX_SESSIONS
    ensures ConnOk(h, a, c.(sessions := c.sessions[sid := b]))
  {
  }

  lemma CloseSession(h: History, a: AConn, c: Conn, sid: Sid)
    requires ConnOk(h, a, c)
    ensures ConnOk(h, a, c.(sessions := c.sessions - {sid}))
  {
    SubsetSize((c.sessions - {sid}).Keys, c.sessions.Keys);
  }

  lemma TakeConnOk(h: History, a: AConn, c: Conn, ok: bool)
    requires ConnOk(h, a, c) && c.down != []
    ensures ConnOk(h, a, TakeConn(c, ok))
  {
    var m := c.down[0];
    var rest := c.(down := c.down[1..]);
    assert DownOk(h, a, m);
    TakeDown(h, a, c);
    if m.kind.Offer? {
      if Opens(c, ok) { OpenSession(h, a, rest, m.sid, m.origin.b); }
      else { QueueUp(h, a, rest, Msg(m.sid, Error, FromSession(m.origin.b))); }
    } else if m.kind.Close? {
      CloseSession(h, a, rest, m.sid);
    }
  }

  lemma TakeMade(s: State, a: AConn, c: Conn, ok: bool)
    requires ConnOk(s.hist, a, c) && c.down != [] && MadeOk(s.hist)
    ensures MadeOk(Take(s, a, c, ok).hist)
  {
    var t := Take(s, a, c, ok);
    assert DownOk(s.hist, a, c.down[0]);
    forall x | x in t.hist.made ensures Bound(t.hist, x.0, x.1, x.2) {
      if x in s.hist.made { assert Bound(s.hist, x.0, x.1, x.2); }
    }
  }

  lemma TakeHandled(s: State, a: AConn, c: Conn, ok: bool)
    requires ConnOk(s.hist, a, c) && c.down != [] && HandledOk(s.log)
    ensures HandledOk(Take(s, a, c, ok).log)
  {
    var m := c.down[0];
    assert DownOk(s.hist, a, m);
    if m.sid in c.sessions { assert Bound(s.hist, a, m.sid, c.sessions[m.sid]); }
  }

  lemma ConnsAfterTake(s: State, t: State, a: AConn, c: Conn)
    requires ConnsOk(s) && ConnOk(s.hist, a, c) && t.conns == s.conns[a := c] && Grows(s.hist, t.hist)
    ensures ConnsOk(t)
  {
    forall x | x in t.conns ensures ConnOk(t.hist, x, t.conns[x]) {
      ConnGrows(s.hist, t.hist, x, if x == a then c else s.conns[x]);
    }
  }

  /** What the agent's step leaves alone. */
  lemma TakeFrame(s: State, a: AConn, c: Conn, ok: bool)
    requires a in s.conns && c.down != []
    ensures var t := Take(s, a, c, ok);
      && t == s.(conns := s.conns[a := TakeConn(c, ok)], hist := t.hist, log := t.log)
      && t.hist == s.hist.(made := t.hist.made) && t.log == s.log.(handled := t.log.handled)
      && TakeConn(c, ok).phase == c.phase && TakeConn(c, ok).dev == c.dev
  {
  }

  /** The tabs look at nothing but the owners, links and devices of the history. */
  lemma TabsStay(s: State, t: State)
    requires TabsOk(s) && t.tabs == s.tabs && t.hist == s.hist.(made := t.hist.made)
    ensures TabsOk(t)
  {
    forall b | b in t.tabs ensures TabOk(t.hist, b, t.tabs[b]) { assert TabOk(s.hist, b, s.tabs[b]); }
  }

  /** One connection has changed, but for its phase. */
  lemma HubAfter(s: State, t: State, a: AConn, next: Conn)
    requires HubOk(s) && a in s.conns && next.phase == s.conns[a].phase && next.dev == s.conns[a].dev
    requires t == s.(conns := s.conns[a := next], hist := s.hist.(made := t.hist.made), log := t.log)
    ensures HubOk(t)
  {
    forall x ensures SameSide(s, t, x) { }
    HubStays(s, t);
  }

  lemma ConnsGrow(s: State, t: State, a: AConn, next: Conn)
    requires ConnsOk(s) && ConnOk(s.hist, a, next)
    requires t.conns == s.conns[a := next] && t.hist == s.hist.(made := t.hist.made)
    ensures ConnsOk(t)
  {
    assert Grows(s.hist, t.hist);
    ConnsAfterTake(s, t, a, next);
  }

  lemma RecordsAfter(h: History, g: History, k: Log, l: Log)
    requires RecordsOk(h, k) && g == h.(made := g.made) && l == k.(handled := l.handled)
    requires MadeOk(g) && HandledOk(l)
    ensures RecordsOk(g, l)
  {
    ScreensGrow(h, g, k);
  }

  /** A step of which the parts are known to be right. */
  lemma TakenKeeps(s: State, t: State, a: AConn, next: Conn)
    requires Inv(s) && a in s.conns && next.phase == s.conns[a].phase && next.dev == s.conns[a].dev
    requires t == s.(conns := s.conns[a := next], hist := t.hist, log := t.log)
    requires t.hist == s.hist.(made := t.hist.made) && t.log == s.log.(handled := t.log.handled)
    requires ConnOk(s.hist, a, next) && MadeOk(t.hist) && HandledOk(t.log)
    ensures Inv(t)
  {
    ConnsGrow(s, t, a, next);
    HubAfter(s, t, a, next);
    TabsStay(s, t);
    RecordsAfter(s.hist, t.hist, s.log, t.log);
  }

  lemma TakeKeeps(s: State, a: AConn, ok: bool)
    requires Inv(s) && a in s.conns && s.conns[a].down != []
    ensures Inv(Take(s, a, s.conns[a], ok))
  {
    var c := s.conns[a];
    TakeFrame(s, a, c, ok);
    TakeConnOk(s.hist, a, c, ok);
    TakeMade(s, a, c, ok);
    TakeHandled(s, a, c, ok);
    TakenKeeps(s, Take(s, a, c, ok), a, TakeConn(c, ok));
  }

  /** The agent drops or writes: its connection changes, and nothing else. */
  lemma AgentSideConn(s: State, a: AConn, c: Conn, e: Event) returns (next: Conn)
    requires ConnOk(s.hist, a, c) && MadeOk(s.hist) && a in s.conns && s.conns[a] == c
    requires e.AgentDrops? || e.SessionSends? || e.AgentForges?
    ensures ConnOk(s.hist, a, next) && next.dev == c.dev && next.phase == c.phase
    ensures AgentStep(s, a, c, e) == s.(conns := s.conns[a := next])
  {
    next := c;
    assert s.conns[a := c] == s.conns;
    match e {
      case AgentDrops(_) =>
        DropConnOk(s.hist, a, c);
        next := c.(alive := false, sessions := map[], open := false);
      case SessionSends(_, sid, b, kind) =>
        if (a, sid, b) in s.hist.made {
          assert Bound(s.hist, a, sid, b);
          QueueUp(s.hist, a, c, Msg(sid, kind, FromSession(b)));
          next := c.(up := c.up + [Msg(sid, kind, FromSession(b))]);
        }
      case AgentForges(_, sid, kind) =>
        QueueUp(s.hist, a, c, Msg(sid, kind, Forged));
        next := c.(up := c.up + [Msg(sid, kind, Forged)]);
    }
  }

  lemma DropConnOk(h: History, a: AConn, c: Conn)
    requires ConnOk(h, a, c)
    ensures ConnOk(h, a, c.(alive := false, sessions := map[], open := false))
  {
    forall i | 0 <= i < |c.down| ensures DownOk(h, a, c.down[i]) { }
    forall i | 0 <= i < |c.up| ensures UpOk(h, a, c.up[i]) { }
  }

  lemma AgentSideKeeps(s: State, a: AConn, e: Event)
    requires Inv(s) && a in s.conns && (e.AgentDrops? || e.SessionSends? || e.AgentForges?)
    ensures Inv(AgentStep(s, a, s.conns[a], e))
  {
    var next := AgentSideConn(s, a, s.conns[a], e);
    var t := AgentStep(s, a, s.conns[a], e);
    HubAfter(s, t, a, next);
  }

  lemma AgentKeeps(s: State, a: AConn, e: Event)
    requires Inv(s) && a in s.conns && OfAgent(e)
    ensures Inv(AgentStep(s, a, s.conns[a], e))
  {
    if !e.AgentTakes? { AgentSideKeeps(s, a, e); }
    else if s.conns[a].alive && s.conns[a].down != [] { TakeKeeps(s, a, e.ok); }
  }

  // ---- the browser handler ----

  /** One more message of this browser in the queue of the agent it looked up. */
  lemma WriteConnOk(h: History, b: BConn, l: Link, kind: Kind, a: AConn, c: Conn)
    requires b in h.link && h.link[b] == l && l.agent == Some(a)
    requires l.sid in h.owner && h.owner[l.sid] == b && ConnOk(h, a, c)
    ensures ConnOk(h, a, c.(down := c.down + [Msg(l.sid, kind, FromBrowser(b))]))
  {
    var m := Msg(l.sid, kind, FromBrowser(b));
    var n := c.(down := c.down + [m]);
    assert DownOk(h, a, m);
    forall i | 0 <= i < |n.down| ensures DownOk(h, a, n.down[i]) {
      if i < |c.down| { assert n.down[i] == c.down[i]; }
    }
  }

  /** The queues after an action of browser b: at most one is longer, by a message of b. */
  ghost predicate Queued(s: State, t: State, b: BConn, l: Link) {
    || t.conns == s.conns
    || exists kind ::
         && l.agent.Some? && l.agent.value in s.conns
         && t.conns == s.conns[l.agent.value := QueuedConn(s.conns[l.agent.value], b, l, kind)]
  }

  ghost function QueuedConn(c: Conn, b: BConn, l: Link, kind: Kind): Conn {
    c.(down := c.down + [Msg(l.sid, kind, FromBrowser(b))])
  }

  lemma QueuedConnOk(s: State, t: State, b: BConn, l: Link)
    requires b in s.hist.link && s.hist.link[b] == l
    requires l.sid in s.hist.owner && s.hist.owner[l.sid] == b && Queued(s, t, b, l)
    requires forall a :: a in s.conns ==> ConnOk(s.hist, a, s.conns[a])
    ensures t.conns.Keys == s.conns.Keys
    ensures forall a :: a in t.conns ==> ConnOk(s.hist, a, t.conns[a])
    ensures forall a :: a in t.conns ==> t.conns[a].phase == s.conns[a].phase && t.conns[a].dev == s.conns[a].dev
  {
    if t.conns != s.conns {
      var kind :| t.conns == s.conns[l.agent.value := QueuedConn(s.conns[l.agent.value], b, l, kind)];
      WriteConnOk(s.hist, b, l, kind, l.agent.value, s.conns[l.agent.value]);
    }
  }

  /** Once the server itself was offered a session, the handler holds it. */
  ghost predicate Holds(s: State, b: BConn, l: Link, p: BrowserPhase)
    requires b in s.tabs
  {
    p == s.tabs[b].phase || (!p.Admitted? && (p.Serving? && p.offered && l.dev == CLOUD ==> p.local))
  }

  /** A browser handler changes its own tab, its own entry, one queue and the logs. */
  ghost predicate BrowserDelta(s: State, t: State, b: BConn, l: Link) {
    && b in s.tabs && t.agents == s.agents && t.latest == s.latest && t.hist == s.hist
    && b in t.tabs && t.tabs == s.tabs[b := t.tabs[b]]
    && ((t.browsers == s.browsers && t.tabs[b].Listed() == s.tabs[b].Listed())
        || (t.browsers == s.browsers - {l.sid} && t.tabs[b].phase.Over?))
    && Holds(s, b, l, t.tabs[b].phase)
    && (t.log.handled == s.log.handled || t.log.handled == s.log.handled + [Handled(b, b)])
    && (t.log.shown == s.log.shown || t.log.shown == s.log.shown + [Shown(b, l.dev, FromSession(b))])
    && Queued(s, t, b, l)
  }

  lemma TabDelta(s: State, b: BConn, l: Link, p: BrowserPhase)
    requires b in s.tabs && Tab(true, p).Listed() == s.tabs[b].Listed() && Holds(s, b, l, p)
    ensures BrowserDelta(s, TabAt(s, b, p), b, l)
  {
  }

  lemma WriteQueues(s: State, b: BConn, l: Link, kind: Kind, done: BrowserPhase, failed: BrowserPhase)
    requires b in s.tabs
    ensures Queued(s, Write(s, b, l, kind, done, failed), b, l)
  {
    var t := Write(s, b, l, kind, done, failed);
    if l.agent.Some? && l.agent.value in s.conns && s.conns[l.agent.value].open {
      assert t.conns == s.conns[l.agent.value := QueuedConn(s.conns[l.agent.value], b, l, kind)];
    }
  }

  lemma WriteDelta(s: State, b: BConn, l: Link, kind: Kind, done: BrowserPhase, failed: BrowserPhase)
    requires b in s.tabs && s.tabs[b].Listed() && Tab(true, done).Listed() && Tab(true, failed).Listed()
    requires Holds(s, b, l, done) && Holds(s, b, l, failed)
    ensures BrowserDelta(s, Write(s, b, l, kind, done, failed), b, l)
  {
    WriteQueues(s, b, l, kind, done, failed);
    TabDelta(s, b, l, done);
    TabDelta(s, b, l, failed);
  }

  lemma RequestDelta(s: State, b: BConn, l: Link, kind: Kind, ok: bool)
    requires b in s.tabs && s.tabs[b].phase.Serving?
    ensures BrowserDelta(s, Request(s, b, l, kind, ok), b, l)
  {
    var p := s.tabs[b].phase;
    assert s.tabs == s.tabs[b := s.tabs[b]];
    TabDelta(s, b, l, Quitting);
    TabDelta(s, b, l, Serving(true, true));
    if kind.Offer? && l.dev != CLOUD {
      WriteDelta(s, b, l, Offer, Serving(true, false), Quitting);
    } else if kind.Relay? {
      WriteDelta(s, b, l, Relay, p, Quitting);
      assert s.tabs == s.tabs[b := s.tabs[b]];
    }
  }

  lemma UnlistDelta(s: State, b: BConn, l: Link)
    requires b in s.tabs
    ensures BrowserDelta(s, BrowserStep(s, b, l, Unlist(b)), b, l)
  {
    assert s.tabs == s.tabs[b := s.tabs[b]];
  }

  lemma LocalDelta(s: State, b: BConn, l: Link)
    requires b in s.tabs
    ensures BrowserDelta(s, BrowserStep(s, b, l, LocalSends(b)), b, l)
  {
    assert s.tabs == s.tabs[b := s.tabs[b]];
  }

  lemma StepDelta(s: State, b: BConn, l: Link, e: Event)
    requires b in s.tabs && OfBrowser(e) && e.b == b
    ensures BrowserDelta(s, BrowserStep(s, b, l, e), b, l)
  {
    assert s.tabs == s.tabs[b := s.tabs[b]];
    match e {
      case Unlist(_) => UnlistDelta(s, b, l);
      case LocalSends(_) => LocalDelta(s, b, l);
      case BrowserSends(_, kind, ok) => if s.tabs[b].phase.Serving? { RequestDelta(s, b, l, kind, ok); }
      case TellAgent(_) => if s.tabs[b].phase.Quitting? { WriteDelta(s, b, l, Close, Unlisting, Unlisting); }
      case BrowserQuits(_) => if s.tabs[b].phase.Serving? { TabDelta(s, b, l, Quitting); }
    }
  }

  lemma DeltaHub(s: State, t: State, b: BConn, l: Link)
    requires HubOk(s) && BrowserDelta(s, t, b, l) && b in s.hist.link && s.hist.link[b] == l
    requires l.sid in s.hist.owner && s.hist.owner[l.sid] == b
    requires t.conns.Keys == s.conns.Keys
    requires forall a :: a in t.conns ==> t.conns[a].phase == s.conns[a].phase && t.conns[a].dev == s.conns[a].dev
    ensures HubOk(t)
  {
    forall d: Dev ensures DevOk(t, d) {
      assert DevOk(s, d);
      SameDevOk(s, t, d);
    }
    forall sid: Sid ensures SidOk(t, sid) { assert SidOk(s, sid) && SidOk(s, l.sid); }
  }

  lemma DeltaTabs(s: State, t: State, b: BConn, l: Link)
    requires TabsOk(s) && BrowserDelta(s, t, b, l) && b in s.hist.link && s.hist.link[b] == l
    ensures TabsOk(t)
  {
    assert TabOk(s.hist, b, s.tabs[b]);
    forall x | x in t.tabs ensures TabOk(t.hist, x, t.tabs[x]) { assert TabOk(s.hist, x, s.tabs[x]); }
  }

  lemma DeltaRecords(s: State, t: State, b: BConn, l: Link)
    requires RecordsOk(s.hist, s.log) && BrowserDelta(s, t, b, l) && b in s.hist.link && s.hist.link[b] == l
    ensures RecordsOk(t.hist, t.log)
  {
  }

  lemma BrowserKeeps(s: State, b: BConn, e: Event)
    requires Inv(s) && b in s.tabs && b in s.hist.link && OfBrowser(e) && e.b == b
    ensures Inv(BrowserStep(s, b, s.hist.link[b], e))
  {
    var l := s.hist.link[b];
    var t := BrowserStep(s, b, l, e);
    StepDelta(s, b, l, e);
    assert TabOk(s.hist, b, s.tabs[b]);
    QueuedConnOk(s, t, b, l);
    DeltaHub(s, t, b, l);
    DeltaTabs(s, t, b, l);
    DeltaRecords(s, t, b, l);
  }

  // ---- every run ----

  lemma StepKeeps(s: State, e: Event)
    requires Inv(s)
    ensures Inv(Step(s, e))
  {
    if OfServer(e) {
      if e.a in s.conns { ServerKeeps(s, e.a, e); }
    } else if OfAgent(e) {
      if e.a in s.conns { AgentKeeps(s, e.a, e); }
    } else if OfBrowser(e) {
      if e.b in s.tabs && e.b in s.hist.link { BrowserKeeps(s, e.b, e); }
    } else if e.AgentConnects? {
      ConnectKeeps(s, e.a, e.d);
    } else if e.BrowserArrives? {
      ArriveKeeps(s, e.b, e.d);
    } else {
      RegisterKeeps(s, e.b, e.sid);
    }
  }

  lemma {:induction false} RunKeeps(s: State, events: seq<Event>)
    requires Inv(s)
    ensures Inv(ExecFrom(s, events))
    decreases |events|
  {
    if events != [] {
      StepKeeps(s, events[0]);
      RunKeeps(Step(s, events[0]), events[1..]);
    }
  }

  lemma ExecKeeps(events: seq<Event>)
    ensures Inv(Exec(events))
  {
    InitialInv();
    RunKeeps(INITIAL, events);
  }

  lemma InitialInv()
    ensures Inv(INITIAL)
  {
  }

  /** In every run, whatever the misbehaving agents write: a relayed request reaches only
      the session that its own browser's offer created; a browser is shown only what came
      over a connection of its own device and, unless that agent forged it, only what its
      own session sent; an agent connection serves at most eight sessions. */
  lemma EveryRunRoutes(events: seq<Event>)
    ensures var s := Exec(events);
      && (forall i :: 0 <= i < |s.log.handled| ==> s.log.handled[i].sender == s.log.handled[i].session)
      && (forall i :: 0 <= i < |s.log.shown| ==> ShownOk(s.hist, s.log.shown[i]))
      && (forall a :: a in s.conns ==> |s.conns[a].sessions| <= 8)
  {
    ExecKeeps(events);
  }

  /** The hub's tables are exact: the agent entry of a device is its latest registration
      until that very connection has cleaned up, and a browser is listed exactly from its
      registration to its removal, under its own id and device. */
  lemma EveryRunKeepsTheHub(events: seq<Event>)
    ensures var s := Exec(events);
      && (forall d: Dev :: DevOk(s, d))
      && (forall sid: Sid :: SidOk(s, sid))
  {
    ExecKeeps(events);
  }

  lemma SparesSuccessor(s: State, a: AConn)
    requires HubOk(s) && a in s.conns && s.conns[a].dev in s.latest && s.latest[s.conns[a].dev] != a
    ensures var t := Step(s, AgentCleansUp(a)); t.agents == s.agents && t.tabs == s.tabs
  {
    assert DevOk(s, s.conns[a].dev);
  }

  /** The clean-up of a replaced agent connection never withdraws its successor, and
      closes no browser. */
  lemma CleanUpSparesSuccessor(events: seq<Event>, a: AConn)
    requires a in Exec(events).conns && Exec(events).conns[a].dev in Exec(events).latest
    requires Exec(events).latest[Exec(events).conns[a].dev] != a
    ensures var s := Exec(events);
      var t := Step(s, AgentCleansUp(a));
      t.agents == s.agents && t.tabs == s.tabs
  {
    ExecKeeps(events);
    SparesSuccessor(Exec(events), a);
  }

  /** A handler that serves a remote device always holds an agent connection of that
      device, and one that serves the server itself holds its local session once it was
      offered: the party it writes to is never missing. */
  lemma EveryRunHasAReceiver(events: seq<Event>, b: BConn)
    requires b in Exec(events).tabs && Exec(events).tabs[b].phase.Serving?
    ensures var s := Exec(events);
      && b in s.hist.link
      && AgentFits(s.hist, s.hist.link[b].dev, s.hist.link[b].agent)
      && (s.hist.link[b].dev == CLOUD && s.tabs[b].phase.offered ==> s.tabs[b].phase.local)
  {
    ExecKeeps(events);
    assert TabOk(Exec(events).hist, b, Exec(events).tabs[b]);
  }
}
