/** What the server's side of the routing keeps: connections arriving, browsers registering, and
    the handler of an agent connection. */
module RemoteServer {
  import opened Prelude
  import opened RemoteModel

  // ---- arrivals ----

  lemma ConnectHub(s: State, a: AConn, d: Dev)
    requires HubOk(s) && a !in s.conns && a !in s.hist.device && d != CLOUD
    ensures HubOk(Connect(s, a, d))
  {
    var t := Connect(s, a, d);
    forall x: Dev ensures DevOk(t, x) { assert DevOk(s, x); }
    forall x: Sid ensures SidOk(t, x) { assert SidOk(s, x); }
  }

  lemma ConnectTabs(s: State, a: AConn, d: Dev)
    requires TabsOk(s) && a !in s.conns && a !in s.hist.device && d != CLOUD
    ensures TabsOk(Connect(s, a, d))
  {
    var t := Connect(s, a, d);
    forall x | x in t.tabs ensures TabOk(t.hist, x, t.tabs[x]) { assert TabOk(s.hist, x, s.tabs[x]); }
  }

  lemma ConnectConns(s: State, a: AConn, d: Dev)
    requires ConnsOk(s) && a !in s.conns && a !in s.hist.device && d != CLOUD
    ensures ConnsOk(Connect(s, a, d)) && Grows(s.hist, Connect(s, a, d).hist)
  {
    var t := Connect(s, a, d);
    forall x | x in t.conns ensures ConnOk(t.hist, x, t.conns[x]) {
      if x != a { ConnGrows(s.hist, t.hist, x, s.conns[x]); }
    }
  }

  /** Growth of the history does not touch the records. */
  lemma RecordsGrow(g: History, h: History, l: Log)
    requires RecordsOk(g, l) && Grows(g, h) && h.made == g.made
    ensures RecordsOk(h, l)
  {
    MadeGrows(g, h);
    ScreensGrow(g, h, l);
  }

  lemma ConnectKeeps(s: State, a: AConn, d: Dev)
    requires Inv(s)
    ensures Inv(Connect(s, a, d))
  {
    if a !in s.conns && a !in s.hist.device && d != CLOUD {
      ConnectHub(s, a, d);
      ConnectTabs(s, a, d);
      ConnectConns(s, a, d);
      RecordsGrow(s.hist, Connect(s, a, d).hist, s.log);
    }
  }

  lemma ArriveHub(s: State, b: BConn, d: Dev)
    requires HubOk(s)
    ensures HubOk(Arrive(s, b, d))
  {
    var t := Arrive(s, b, d);
    forall x: Dev ensures DevOk(t, x) { assert DevOk(s, x); }
    forall x: Sid ensures SidOk(t, x) { assert SidOk(s, x); }
  }

  lemma ArriveTabs(s: State, b: BConn, d: Dev)
    requires TabsOk(s) && HubOk(s) && ConnsOk(s)
    ensures TabsOk(Arrive(s, b, d))
  {
    var t := Arrive(s, b, d);
    assert DevOk(s, d) && DevOk(s, CLOUD);
    if d in s.agents { assert ConnOk(s.hist, s.agents[d], s.conns[s.agents[d]]); }
    forall x | x in t.tabs ensures TabOk(t.hist, x, t.tabs[x]) {
      if x in s.tabs { assert TabOk(s.hist, x, s.tabs[x]); }
    }
  }

  lemma ArriveKeeps(s: State, b: BConn, d: Dev)
    requires Inv(s)
    ensures Inv(Arrive(s, b, d))
  {
    ArriveHub(s, b, d);
    ArriveTabs(s, b, d);
  }

  lemma RegisterHub(s: State, b: BConn, sid: Sid)
    requires HubOk(s) && b in s.tabs && s.tabs[b].phase.Admitted? && sid !in s.hist.owner && b !in s.hist.link
    ensures HubOk(Register(s, b, sid))
  {
    var t := Register(s, b, sid);
    forall d: Dev ensures DevOk(t, d) { assert DevOk(s, d); }
    forall x: Sid ensures SidOk(t, x) { assert SidOk(s, x); }
  }

  lemma RegisterTabs(s: State, b: BConn, sid: Sid)
    requires TabsOk(s) && b in s.tabs && s.tabs[b].phase.Admitted? && sid !in s.hist.owner
    ensures TabsOk(Register(s, b, sid))
  {
    var t := Register(s, b, sid);
    assert TabOk(s.hist, b, s.tabs[b]);
    forall x | x in t.tabs ensures TabOk(t.hist, x, t.tabs[x]) { assert TabOk(s.hist, x, s.tabs[x]); }
  }

  lemma RegisterConns(s: State, b: BConn, sid: Sid)
    requires ConnsOk(s) && b in s.tabs && s.tabs[b].phase.Admitted? && sid !in s.hist.owner && b !in s.hist.link
    ensures ConnsOk(Register(s, b, sid)) && Grows(s.hist, Register(s, b, sid).hist)
  {
    var t := Register(s, b, sid);
    forall x | x in t.conns ensures ConnOk(t.hist, x, t.conns[x]) { ConnGrows(s.hist, t.hist, x, s.conns[x]); }
  }

  lemma RegisterKeeps(s: State, b: BConn, sid: Sid)
    requires Inv(s)
    ensures Inv(Register(s, b, sid))
  {
    if b in s.tabs && s.tabs[b].phase.Admitted? && sid !in s.hist.owner {
      assert TabOk(s.hist, b, s.tabs[b]);
      RegisterHub(s, b, sid);
      RegisterTabs(s, b, sid);
      RegisterConns(s, b, sid);
      RecordsGrow(s.hist, Register(s, b, sid).hist, s.log);
    }
  }

  // ---- the agent handler ----

  lemma PickOk(s: State, a: AConn, c: Conn)
    requires ConnOk(s.hist, a, c) && c.up != [] && SidOk(s, c.up[0].sid)
    ensures Routable(s, c, c.up[0]) ==>
      ShownOk(s.hist, Shown(s.browsers[c.up[0].sid].conn, c.dev, c.up[0].origin))
  {
    assert UpOk(s.hist, a, c.up[0]);
  }

  lemma PickConnOk(h: History, a: AConn, c: Conn, p: AgentPhase)
    requires ConnOk(h, a, c) && c.up != []
    requires p.Delivering? ==> ShownOk(h, Shown(p.to, c.dev, p.msg.origin))
    ensures ConnOk(h, a, c.(up := c.up[1..], phase := p))
  {
    var n := c.(up := c.up[1..], phase := p);
    forall i | 0 <= i < |n.up| ensures UpOk(h, a, n.up[i]) { assert n.up[i] == c.up[i + 1]; }
  }

  /** Closing a connection or moving its handler on says nothing about its messages. */
  lemma PhaseConnOk(h: History, a: AConn, c: Conn, p: AgentPhase, open: bool)
    requires ConnOk(h, a, c) && !p.Delivering?
    ensures ConnOk(h, a, c.(phase := p, open := open)) && ConnOk(h, a, c.(open := open))
  {
  }

  lemma PriorConnOk(s: State, a: AConn, c: Conn, x: AConn)
    requires a in s.conns && s.conns[a] == c && x in s.conns && c.phase.Replacing?
    requires ConnOk(s.hist, x, s.conns[x])
    ensures var t := ClosePrior(s, a, c); x in t.conns && ConnOk(s.hist, x, t.conns[x])
  {
    var o := s.conns[x];
    PhaseConnOk(s.hist, x, o, Reading, o.open);
    PhaseConnOk(s.hist, x, o, Reading, false);
  }

  lemma CleanUpConnOk(s: State, a: AConn, c: Conn, x: AConn)
    requires a in s.conns && s.conns[a] == c && x in s.conns
    requires ConnOk(s.hist, x, s.conns[x])
    ensures var t := CleanUp(s, a, c); x in t.conns && ConnOk(s.hist, x, t.conns[x])
  {
    PhaseConnOk(s.hist, x, s.conns[x], Finished, s.conns[x].open);
  }

  /** Registering, delivering and quitting only move the connection's own handler on. */
  lemma MovesOn(s: State, a: AConn, c: Conn, e: Event) returns (p: AgentPhase, open: bool)
    requires a in s.conns && s.conns[a] == c
    requires e.AgentRegisters? || e.AgentDelivers? || e.AgentQuits?
    ensures p == c.phase || !p.Delivering?
    ensures ServerStep(s, a, c, e).conns == s.conns[a := c.(phase := p, open := open)]
  {
    p, open := c.phase, c.open;
    assert s.conns[a := c.(phase := p, open := open)] == s.conns;
    match e {
      case AgentRegisters(_) =>
        if c.phase.Upgraded? { p := Replacing(if c.dev in s.agents then Some(s.agents[c.dev]) else None); }
      case AgentDelivers(_) => if c.phase.Delivering? { p := Reading; }
      case _ => if c.phase.Reading? { p, open := Leaving, false; }
    }
  }

  lemma OwnConnOk(s: State, a: AConn, c: Conn, e: Event)
    requires a in s.conns && s.conns[a] == c && ConnOk(s.hist, a, c)
    requires e.AgentRegisters? || e.AgentDelivers? || e.AgentQuits?
    ensures var t := ServerStep(s, a, c, e);
      && a in t.conns && t.conns == s.conns[a := t.conns[a]] && ConnOk(s.hist, a, t.conns[a])
  {
    var p, open := MovesOn(s, a, c, e);
    if p.Delivering? { PhaseConnOk(s.hist, a, c, Reading, open); } else { PhaseConnOk(s.hist, a, c, p, open); }
  }

  lemma ServerConnOk(s: State, a: AConn, c: Conn, e: Event, x: AConn)
    requires a in s.conns && s.conns[a] == c && OfServer(e) && !e.AgentPicks?
    requires x in s.conns && ConnOk(s.hist, x, s.conns[x]) && ConnOk(s.hist, a, c)
    ensures var t := ServerStep(s, a, c, e); x in t.conns && ConnOk(s.hist, x, t.conns[x])
  {
    match e {
      case ClosePredecessor(_) => if c.phase.Replacing? { PriorConnOk(s, a, c, x); }
      case AgentCleansUp(_) => if c.phase.Leaving? { CleanUpConnOk(s, a, c, x); }
      case _ => OwnConnOk(s, a, c, e);
    }
  }

  lemma PickerConnOk(s: State, a: AConn, c: Conn, e: Event, x: AConn)
    requires a in s.conns && s.conns[a] == c && e.AgentPicks?
    requires ConnOk(s.hist, a, c) && x in s.conns && ConnOk(s.hist, x, s.conns[x])
    requires c.up != [] ==> SidOk(s, c.up[0].sid)
    ensures var t := ServerStep(s, a, c, e); x in t.conns && ConnOk(s.hist, x, t.conns[x])
  {
    if c.phase.Reading? && c.up != [] {
      var m := c.up[0];
      var p := if Routable(s, c, m) then Delivering(s.browsers[m.sid].conn, m) else Reading;
      PickOk(s, a, c);
      PickConnOk(s.hist, a, c, p);
      assert ServerStep(s, a, c, e).conns == s.conns[a := c.(up := c.up[1..], phase := p)];
    }
  }

  lemma CloseKeepsSides(s: State, a: AConn, c: Conn, x: AConn)
    requires a in s.conns && s.conns[a] == c && c.phase.Replacing?
    ensures SameSide(s, ClosePrior(s, a, c), x)
    ensures ClosePrior(s, a, c).agents == s.agents && ClosePrior(s, a, c).latest == s.latest
  {
  }

  /** A connection moves on between its registration and its clean-up. */
  lemma MoveKeepsSides(s: State, t: State, a: AConn, next: Conn, x: AConn)
    requires a in s.conns && t.conns == s.conns[a := next] && next.dev == s.conns[a].dev
    requires !s.conns[a].phase.Upgraded? && !s.conns[a].phase.Finished?
    requires !next.phase.Upgraded? && !next.phase.Finished?
    ensures SameSide(s, t, x)
  {
  }

  lemma OthersKeepSides(s: State, a: AConn, c: Conn, e: Event, x: AConn)
    requires a in s.conns && s.conns[a] == c && OfServer(e) && !e.AgentRegisters? && !e.AgentCleansUp?
    ensures SameSide(s, ServerStep(s, a, c, e), x)
    ensures ServerStep(s, a, c, e).agents == s.agents && ServerStep(s, a, c, e).latest == s.latest
  {
    if e.ClosePredecessor? {
      if c.phase.Replacing? { CloseKeepsSides(s, a, c, x); }
    } else {
      var t := ServerStep(s, a, c, e);
      if t != s { MoveKeepsSides(s, t, a, t.conns[a], x); }
    }
  }

  lemma ServerDevOk(s: State, a: AConn, c: Conn, e: Event, d: Dev)
    requires a in s.conns && s.conns[a] == c && OfServer(e) && !e.AgentRegisters?
    requires DevOk(s, d) && DevOk(s, c.dev)
    ensures DevOk(ServerStep(s, a, c, e), d)
  {
    if e.AgentCleansUp? {
      if c.phase.Leaving? { CleanUpDevOk(s, a, c, d); }
    } else {
      OthersKeepSides(s, a, c, e, if d in s.latest then s.latest[d] else a);
      SameDevOk(s, ServerStep(s, a, c, e), d);
    }
  }

  lemma CleanUpDevOk(s: State, a: AConn, c: Conn, d: Dev)
    requires a in s.conns && s.conns[a] == c && DevOk(s, d) && DevOk(s, c.dev) && c.phase.Leaving?
    ensures DevOk(CleanUp(s, a, c), d)
  {
  }

  lemma RegistrationDevOk(s: State, a: AConn, c: Conn, e: Event, d: Dev)
    requires a in s.conns && s.conns[a] == c && e.AgentRegisters?
    requires DevOk(s, d) && DevOk(s, c.dev)
    ensures DevOk(ServerStep(s, a, c, e), d)
  {
  }

  /** An agent handler changes no session id, link or entry; it may only close tabs. */
  lemma ServerFrame(s: State, a: AConn, c: Conn, e: Event)
    requires a in s.conns && OfServer(e)
    ensures var t := ServerStep(s, a, c, e);
      && t.hist == s.hist && t.browsers == s.browsers && t.tabs.Keys == s.tabs.Keys
      && (forall b :: b in s.tabs ==> t.tabs[b].phase == s.tabs[b].phase)
  {
    if e.AgentCleansUp? {
      if c.phase.Leaving? { CleanUpTabs(s, a, c); }
    }
  }

  lemma CleanUpTabs(s: State, a: AConn, c: Conn)
    ensures var t := CleanUp(s, a, c);
      && t.tabs.Keys == s.tabs.Keys && (forall b :: b in s.tabs ==> t.tabs[b].phase == s.tabs[b].phase)
  {
  }

  lemma ServerLog(s: State, a: AConn, c: Conn, e: Event)
    requires ConnOk(s.hist, a, c) && OfServer(e) && ScreensOk(s.hist, s.log) && HandledOk(s.log)
    ensures var t := ServerStep(s, a, c, e); ScreensOk(s.hist, t.log) && HandledOk(t.log)
  {
  }

  lemma ServerTabs(s: State, t: State)
    requires TabsOk(s) && t.hist == s.hist && t.tabs.Keys == s.tabs.Keys
    requires forall b :: b in s.tabs ==> t.tabs[b].phase == s.tabs[b].phase
    ensures TabsOk(t)
  {
    forall b | b in t.tabs ensures TabOk(t.hist, b, t.tabs[b]) { assert TabOk(s.hist, b, s.tabs[b]); }
  }

  lemma ServerSidOk(s: State, t: State, sid: Sid)
    requires SidOk(s, sid) && t.hist == s.hist && t.browsers == s.browsers && t.tabs.Keys == s.tabs.Keys
    requires forall b :: b in s.tabs ==> t.tabs[b].phase == s.tabs[b].phase
    ensures SidOk(t, sid)
  {
    if sid in s.hist.owner {
      var b := s.hist.owner[sid];
      assert b in s.tabs.Keys && t.tabs[b].phase == s.tabs[b].phase;
    }
  }

  lemma ServerConns(s: State, a: AConn, c: Conn, e: Event)
    requires ConnsOk(s) && HubOk(s) && a in s.conns && s.conns[a] == c && OfServer(e)
    ensures var t := ServerStep(s, a, c, e); forall x :: x in t.conns ==> ConnOk(s.hist, x, t.conns[x])
  {
    var t := ServerStep(s, a, c, e);
    forall x | x in t.conns ensures ConnOk(s.hist, x, t.conns[x]) {
      assert x in s.conns by { ServerKeys(s, a, c, e); }
      if e.AgentPicks? {
        if c.up != [] { assert SidOk(s, c.up[0].sid); }
        PickerConnOk(s, a, c, e, x);
      } else {
        ServerConnOk(s, a, c, e, x);
      }
    }
  }

  lemma ServerHub(s: State, a: AConn, c: Conn, e: Event)
    requires HubOk(s) && a in s.conns && s.conns[a] == c && OfServer(e)
    ensures HubOk(ServerStep(s, a, c, e))
  {
    var t := ServerStep(s, a, c, e);
    ServerFrame(s, a, c, e);
    forall d: Dev ensures DevOk(t, d) {
      assert DevOk(s, d) && DevOk(s, c.dev);
      if e.AgentRegisters? { RegistrationDevOk(s, a, c, e, d); } else { ServerDevOk(s, a, c, e, d); }
    }
    forall sid: Sid ensures SidOk(t, sid) {
      assert SidOk(s, sid);
      ServerSidOk(s, t, sid);
    }
  }

  lemma ServerKeys(s: State, a: AConn, c: Conn, e: Event)
    requires a in s.conns && s.conns[a] == c && OfServer(e)
    ensures ServerStep(s, a, c, e).conns.Keys == s.conns.Keys
  {
    match e {
      case ClosePredecessor(_) => if c.phase.Replacing? { PriorKeys(s, a, c); }
      case AgentCleansUp(_) =>
      case AgentPicks(_) =>
      case _ => var p, open := MovesOn(s, a, c, e);
    }
  }

  lemma PriorKeys(s: State, a: AConn, c: Conn)
    requires a in s.conns && c.phase.Replacing?
    ensures ClosePrior(s, a, c).conns.Keys == s.conns.Keys
  {
  }

  lemma ServerKeeps(s: State, a: AConn, e: Event)
    requires Inv(s) && a in s.conns && OfServer(e)
    ensures Inv(ServerStep(s, a, s.conns[a], e))
  {
    var c := s.conns[a];
    ServerFrame(s, a, c, e);
    ServerLog(s, a, c, e);
    ServerConns(s, a, c, e);
    ServerHub(s, a, c, e);
    ServerTabs(s, ServerStep(s, a, c, e));
  }
}
