/** The server's hub object, with the two tables that the connection handlers share. */
module RemoteHub {
  import opened Prelude
  import opened RemoteModel
  import opened RemoteServer
  import opened RemoteRouting

  /** The step of an agent handler that has read a message. */
  lemma Picked(s: State, a: AConn, msg: Msg)
    requires Inv(s) && a in s.conns && s.conns[a].phase.Reading? && s.conns[a].up != [] && s.conns[a].up[0] == msg
    ensures var t, c := Step(s, AgentPicks(a)), s.conns[a];
      && Inv(t) && t.agents == s.agents && t.browsers == s.browsers && t.hist == s.hist
      && a in t.conns && t.conns[a].dev == c.dev
      && t.conns[a].phase == (if Routable(s, c, msg) then Delivering(s.browsers[msg.sid].conn, msg) else Reading)
      && (Routable(s, c, msg) ==> ShownOk(t.hist, Shown(s.browsers[msg.sid].conn, c.dev, msg.origin)))
  {
    StepKeeps(s, AgentPicks(a));
    assert ConnOk(s.hist, a, Step(s, AgentPicks(a)).conns[a]);
  }

  lemma EmptyOrNot(s: set<Sid>)
    ensures s == {} || exists x :: x in s
  {
    if forall x :: x !in s { assert s == {}; }
  }

  /** The connections of the browsers that are registered for a device. */
  method BrowsersOf(browsers: map<Sid, Entry>, id: Dev) returns (conns: set<BConn>)
    ensures conns == set sid | sid in browsers && browsers[sid].device == id :: browsers[sid].conn
  {
    conns := {};
    var rest: map<Sid, Entry> := browsers;
    while rest.Keys != {}
      invariant forall sid :: sid in rest ==> sid in browsers && rest[sid] == browsers[sid]
      invariant conns == set sid | sid in browsers && sid !in rest && browsers[sid].device == id :: browsers[sid].conn
      decreases |rest|
    {
      EmptyOrNot(rest.Keys);
      var sid :| sid in rest.Keys;
      if rest[sid].device == id {
        conns := conns + {rest[sid].conn};
      }
      rest := rest - {sid};
    }
  }

  /** The hub's two tables. `m` follows all parties; each method is one critical section. */
  class Hub {
    var agents: map<Dev, AConn>
    var browsers: map<Sid, Entry>
    ghost var m: State

    ghost predicate Valid() reads this {
      m.agents == agents && m.browsers == browsers && Inv(m)
    }

    constructor ()
      ensures Valid() && m == INITIAL
    {
      agents, browsers := map[], map[];
      m := INITIAL;
    }

    /** Put a connection in front of whatever the device had, and return what it replaced. */
    method RegisterAgent(id: Dev, c: AConn) returns (replaced: Option<AConn>)
      requires Valid() && c in m.conns && m.conns[c].dev == id && m.conns[c].phase.Upgraded?
      modifies this
      ensures Valid() && m == Step(old(m), AgentRegisters(c))
      ensures agents == old(agents)[id := c]
      ensures m.conns[c].phase == Replacing(replaced) && browsers == old(browsers)
      ensures replaced == if id in old(agents) then Some(old(agents)[id]) else None
    {
      StepKeeps(m, AgentRegisters(c));
      m := Step(m, AgentRegisters(c));
      replaced := if id in agents then Some(agents[id]) else None;
      agents := agents[id := c];
    }

    /** The deferred clean-up of an agent handler; the result is the browsers it closes. */
    method CleanUpAgent(id: Dev, c: AConn) returns (closed: set<BConn>)
      requires Valid() && c in m.conns && m.conns[c].dev == id && m.conns[c].phase.Leaving?
      modifies this
      ensures Valid() && m == Step(old(m), AgentCleansUp(c))
      ensures agents == if id in old(agents) && old(agents)[id] == c then old(agents) - {id} else old(agents)
      ensures browsers == old(browsers)
      ensures closed ==
        if id in old(agents) && old(agents)[id] == c
        then set sid | sid in browsers && browsers[sid].device == id :: browsers[sid].conn
        else {}
    {
      StepKeeps(m, AgentCleansUp(c));
      ghost var prior := m;
      m := Step(m, AgentCleansUp(c));
      ServerFrame(prior, c, prior.conns[c], AgentCleansUp(c));
      closed := {};
      if id in agents && agents[id] == c {
        agents := agents - {id};
        closed := BrowsersOf(browsers, id);
      }
    }

    /** Look up the browser for a message an agent sent; only its own device's browsers count. */
    method FindBrowser(id: Dev, c: AConn, msg: Msg) returns (to: Option<BConn>)
      requires Valid() && c in m.conns && m.conns[c].dev == id
      requires m.conns[c].phase.Reading? && m.conns[c].up != [] && m.conns[c].up[0] == msg
      modifies this
      ensures Valid() && m == Step(old(m), AgentPicks(c))
      ensures to ==
        if (msg.kind.Answer? || msg.kind.Relay? || msg.kind.Error?)
           && msg.sid in browsers && browsers[msg.sid].device == id
        then Some(browsers[msg.sid].conn) else None
      ensures browsers == old(browsers) && agents == old(agents)
      ensures to.Some? <==> m.conns[c].phase.Delivering?
      ensures to.Some? ==> ShownOk(m.hist, Shown(to.value, id, msg.origin)) && m.conns[c].phase.to == to.value
    {
      Picked(m, c, msg);
      m := Step(m, AgentPicks(c));
      if (msg.kind.Answer? || msg.kind.Relay? || msg.kind.Error?)
         && msg.sid in browsers && browsers[msg.sid].device == id {
        to := Some(browsers[msg.sid].conn);
      } else {
        to := None;
      }
    }

    method AddBrowser(sid: Sid, conn: BConn, id: Dev)
      requires Valid() && conn in m.tabs && m.tabs[conn].phase.Admitted? && m.tabs[conn].phase.dev == id
      requires sid !in m.hist.owner
      modifies this
      ensures Valid() && m == Step(old(m), BrowserRegisters(conn, sid))
      ensures browsers == old(browsers)[sid := Entry(conn, id)] && agents == old(agents)
    {
      StepKeeps(m, BrowserRegisters(conn, sid));
      m := Step(m, BrowserRegisters(conn, sid));
      browsers := browsers[sid := Entry(conn, id)];
    }

    method RemoveBrowser(sid: Sid, ghost conn: BConn)
      requires Valid() && conn in m.tabs && m.tabs[conn].phase.Unlisting?
      requires conn in m.hist.link && m.hist.link[conn].sid == sid
      modifies this
      ensures Valid() && m == Step(old(m), Unlist(conn))
      ensures browsers == old(browsers) - {sid} && agents == old(agents)
    {
      StepKeeps(m, Unlist(conn));
      m := Step(m, Unlist(conn));
      browsers := browsers - {sid};
    }
  }
}
