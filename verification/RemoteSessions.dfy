/** What the parties of a remote session achieve together: from any reachable state, agents come
    online, browsers get sessions, requests and answers arrive, and everything is withdrawn at
    the end. Each run is given by its events, and its whole outcome is stated. */
module RemoteSessions {
  import opened Prelude
  import opened RemoteModel
  import opened RemoteRouting

  lemma FirstEvent(s: State, e: Event, rest: seq<Event>)
    ensures ExecFrom(s, [e] + rest) == ExecFrom(Step(s, e), rest)
  {
    assert ([e] + rest)[1..] == rest;
  }

  lemma TwoEvents(s: State, e: Event, f: Event)
    ensures ExecFrom(s, [e, f]) == Step(Step(s, e), f)
  {
    FirstEvent(Step(s, e), f, []);
    FirstEvent(s, e, [f]);
    assert [f] + [] == [f] && [e] + [f] == [e, f];
  }

  lemma ThreeEvents(s: State, e: Event, f: Event, g: Event)
    ensures ExecFrom(s, [e, f, g]) == Step(Step(Step(s, e), f), g)
  {
    TwoEvents(Step(s, e), f, g);
    FirstEvent(s, e, [f, g]);
    assert [e] + [f, g] == [e, f, g];
  }

  // ---- agents ----

  /** A new connection of a device comes in front of what the device had, which is closed. */
  lemma AgentComesOnline(before: seq<Event>, a: AConn, d: Dev)
    requires a !in Exec(before).conns && a !in Exec(before).hist.device && d != CLOUD
    ensures var s := Exec(before);
      var t := ExecFrom(s, [AgentConnects(a, d), AgentRegisters(a), ClosePredecessor(a)]);
      && t.agents == s.agents[d := a] && t.browsers == s.browsers && t.tabs == s.tabs && t.log == s.log
      && t.conns.Keys == s.conns.Keys + {a} && t.conns[a] == Conn(d, true, Reading, [], [], true, map[])
      && forall x :: x in s.conns ==>
           t.conns[x] == if d in s.agents && x == s.agents[d] then s.conns[x].(open := false) else s.conns[x]
  {
    var s := Exec(before);
    ThreeEvents(s, AgentConnects(a, d), AgentRegisters(a), ClosePredecessor(a));
    NewIsNotCurrent(before, a, d);
    Registers(s, a, d);
    var t := Step(Step(s, AgentConnects(a, d)), AgentRegisters(a));
    ReplacesPrior(t, a, t.conns[a]);
  }

  lemma NewIsNotCurrent(before: seq<Event>, a: AConn, d: Dev)
    requires a !in Exec(before).conns
    ensures var s := Exec(before); d in s.agents ==> s.agents[d] != a
  {
    ExecKeeps(before);
    assert DevOk(Exec(before), d);
  }

  lemma Registers(s: State, a: AConn, d: Dev)
    requires a !in s.conns && a !in s.hist.device && d != CLOUD
    ensures var t := Step(Step(s, AgentConnects(a, d)), AgentRegisters(a));
      var prior := if d in s.agents then Some(s.agents[d]) else None;
      && t.agents == s.agents[d := a] && t.browsers == s.browsers && t.tabs == s.tabs && t.log == s.log
      && t.conns == s.conns[a := Conn(d, true, Replacing(prior), [], [], true, map[])]
  {
    var c := Conn(d, true, Upgraded, [], [], true, map[]);
    var s1 := s.(conns := s.conns[a := c], hist := s.hist.(device := s.hist.device[a := d]));
    assert Step(s, AgentConnects(a, d)) == s1;
  }

  lemma ReplacesPrior(s: State, a: AConn, c: Conn)
    requires a in s.conns && s.conns[a] == c && c.phase.Replacing? && c.phase.prior != Some(a)
    ensures var t := Step(s, ClosePredecessor(a));
      && t == s.(conns := t.conns) && t.conns.Keys == s.conns.Keys && t.conns[a] == c.(phase := Reading)
      && forall x :: x in s.conns && x != a ==>
           t.conns[x] == if c.phase.prior == Some(x) then s.conns[x].(open := false) else s.conns[x]
  {
  }

  /** When the current connection of a device ends, its entry goes and the browsers listed for the
      device are closed, but no others. */
  lemma AgentGoesOffline(before: seq<Event>, a: AConn, d: Dev)
    requires var s := Exec(before);
      && a in s.conns && s.conns[a].dev == d && s.conns[a].phase.Reading?
      && d in s.agents && s.agents[d] == a
    ensures var s := Exec(before);
      var t := ExecFrom(s, [AgentQuits(a), AgentCleansUp(a)]);
      && t.agents == s.agents - {d} && t.browsers == s.browsers && t.log == s.log
      && t.conns == s.conns[a := s.conns[a].(open := false, phase := Finished)]
      && t.tabs.Keys == s.tabs.Keys
      && forall b :: b in s.tabs ==>
           t.tabs[b] == if exists sid :: sid in s.browsers && s.browsers[sid] == Entry(b, d)
                        then s.tabs[b].(open := false) else s.tabs[b]
  {
    var s := Exec(before);
    TwoEvents(s, AgentQuits(a), AgentCleansUp(a));
    QuitsAndCleansUp(s, a);
    forall b ensures (exists sid :: sid in s.browsers && s.browsers[sid] == Entry(b, d)) <==> LinkListed(s, b, d) {
      OneEntry(before, b, d);
    }
  }

  /** The entry under the browser's own id is its own. */
  ghost predicate LinkListed(s: State, b: BConn, d: Dev) {
    b in s.hist.link && s.hist.link[b].sid in s.browsers && s.browsers[s.hist.link[b].sid] == Entry(b, d)
  }

  lemma QuitsAndCleansUp(s: State, a: AConn)
    requires a in s.conns && s.conns[a].phase.Reading?
    requires s.conns[a].dev in s.agents && s.agents[s.conns[a].dev] == a
    ensures var t, d := Step(Step(s, AgentQuits(a)), AgentCleansUp(a)), s.conns[a].dev;
      && t.agents == s.agents - {d} && t.browsers == s.browsers && t.log == s.log
      && t.conns == s.conns[a := s.conns[a].(open := false, phase := Finished)]
      && t.tabs.Keys == s.tabs.Keys
      && forall b :: b in s.tabs ==>
           t.tabs[b] == if LinkListed(s, b, d) then s.tabs[b].(open := false) else s.tabs[b]
  {
    var c := s.conns[a].(phase := Leaving, open := false);
    var t := s.(conns := s.conns[a := c]);
    assert Step(s, AgentQuits(a)) == t;
    assert Step(t, AgentCleansUp(a)) == CleanUp(t, a, c);
  }

  lemma OneEntry(before: seq<Event>, b: BConn, d: Dev)
    ensures var s := Exec(before);
      (exists sid :: sid in s.browsers && s.browsers[sid] == Entry(b, d)) <==> LinkListed(s, b, d)
  {
    ExecKeeps(before);
    var s := Exec(before);
    if sid :| sid in s.browsers && s.browsers[sid] == Entry(b, d) { assert SidOk(s, sid); }
  }

  // ---- browsers ----

  /** A browser that finds its device online and less than 32 sessions gets an entry of its own. */
  lemma BrowserGetsEntry(before: seq<Event>, b: BConn, d: Dev, sid: Sid)
    requires var s := Exec(before);
      && b !in s.tabs && sid !in s.hist.owner && |s.browsers| < 32 && (d == CLOUD || d in s.agents)
    ensures var s := Exec(before);
      var agent := if d in s.agents then Some(s.agents[d]) else None;
      ExecFrom(s, [BrowserArrives(b, d), BrowserRegisters(b, sid)])
      == s.(browsers := s.browsers[sid := Entry(b, d)], tabs := s.tabs[b := Tab(true, Serving(false, false))],
            hist := s.hist.(link := s.hist.link[b := Link(sid, d, agent)], owner := s.hist.owner[sid := b]))
  {
    var s := Exec(before);
    TwoEvents(s, BrowserArrives(b, d), BrowserRegisters(b, sid));
    var agent := if d in s.agents then Some(s.agents[d]) else None;
    var t := s.(tabs := s.tabs[b := Tab(true, Admitted(d, agent))]);
    assert Step(s, BrowserArrives(b, d)) == t;
    EntersTable(t, b, sid, d, agent);
    assert t.tabs[b := Tab(true, Serving(false, false))] == s.tabs[b := Tab(true, Serving(false, false))];
  }

  lemma EntersTable(s: State, b: BConn, sid: Sid, d: Dev, agent: Option<AConn>)
    requires b in s.tabs && s.tabs[b] == Tab(true, Admitted(d, agent)) && sid !in s.hist.owner
    ensures Step(s, BrowserRegisters(b, sid))
         == s.(browsers := s.browsers[sid := Entry(b, d)], tabs := s.tabs[b := Tab(true, Serving(false, false))],
               hist := s.hist.(link := s.hist.link[b := Link(sid, d, agent)], owner := s.hist.owner[sid := b]))
  {
  }

  /** The browser's handler serves it, and its agent's connection works and has nothing to do. */
  ghost predicate Connected(s: State, b: BConn, sid: Sid, a: AConn, offered: bool) {
    && b in s.tabs && s.tabs[b] == Tab(true, Serving(offered, false))
    && b in s.hist.link && s.hist.link[b].sid == sid && s.hist.link[b].agent == Some(a)
    && s.hist.link[b].dev != CLOUD
    && a in s.conns && s.conns[a].open && s.conns[a].alive && s.conns[a].down == []
  }

  /** The message goes to the agent, and is the only one on its way. */
  ghost function Underway(s: State, b: BConn, p: BrowserPhase, a: AConn, m: Msg): State
    requires b in s.tabs && a in s.conns
  {
    s.(tabs := s.tabs[b := s.tabs[b].(phase := p)], conns := s.conns[a := s.conns[a].(down := [m])])
  }

  lemma OfferGoesOut(s: State, b: BConn, sid: Sid, a: AConn)
    requires Connected(s, b, sid, a, false)
    ensures Step(s, BrowserSends(b, Offer, true))
         == Underway(s, b, Serving(true, false), a, Msg(sid, Offer, FromBrowser(b)))
  {
    assert s.conns[a].down + [Msg(sid, Offer, FromBrowser(b))] == [Msg(sid, Offer, FromBrowser(b))];
  }

  lemma RequestGoesOut(s: State, b: BConn, sid: Sid, a: AConn)
    requires Connected(s, b, sid, a, true)
    ensures Step(s, BrowserSends(b, Relay, true))
         == Underway(s, b, Serving(true, false), a, Msg(sid, Relay, FromBrowser(b)))
  {
    assert s.conns[a].down + [Msg(sid, Relay, FromBrowser(b))] == [Msg(sid, Relay, FromBrowser(b))];
  }

  /** The agent takes the one message on its way. */
  lemma Takes(s: State, a: AConn, m: Msg, ok: bool)
    requires a in s.conns && s.conns[a].alive && s.conns[a].down == [m]
    ensures Step(s, AgentTakes(a, ok)) == Take(s, a, s.conns[a], ok) && [m][1..] == []
  {
  }

  /** The first offer opens a session for this browser at its agent, if the agent has less than eight
      and can start it. */
  lemma OfferOpensSession(before: seq<Event>, b: BConn, sid: Sid, a: AConn)
    requires var s := Exec(before);
      Connected(s, b, sid, a, false) && sid !in s.conns[a].sessions && |s.conns[a].sessions| < 8
    ensures var s := Exec(before);
      var c := s.conns[a];
      ExecFrom(s, [BrowserSends(b, Offer, true), AgentTakes(a, true)])
      == s.(tabs := s.tabs[b := Tab(true, Serving(true, false))],
            conns := s.conns[a := c.(sessions := c.sessions[sid := b])],
            hist := s.hist.(made := s.hist.made + {(a, sid, b)}))
  {
    var s := Exec(before);
    TwoEvents(s, BrowserSends(b, Offer, true), AgentTakes(a, true));
    OfferGoesOut(s, b, sid, a);
    var m := Msg(sid, Offer, FromBrowser(b));
    Takes(Underway(s, b, Serving(true, false), a, m), a, m, true);
  }

  /** An offer that the agent cannot serve comes back as an error under the same session id. */
  lemma OfferIsRefused(before: seq<Event>, b: BConn, sid: Sid, a: AConn, ok: bool)
    requires var s := Exec(before);
      Connected(s, b, sid, a, false) && (sid in s.conns[a].sessions || |s.conns[a].sessions| >= 8 || !ok)
    ensures var s := Exec(before);
      var c := s.conns[a];
      ExecFrom(s, [BrowserSends(b, Offer, true), AgentTakes(a, ok)])
      == s.(tabs := s.tabs[b := Tab(true, Serving(true, false))],
            conns := s.conns[a := c.(up := c.up + [Msg(sid, Error, FromSession(b))])])
  {
    var s := Exec(before);
    TwoEvents(s, BrowserSends(b, Offer, true), AgentTakes(a, ok));
    OfferGoesOut(s, b, sid, a);
    var m := Msg(sid, Offer, FromBrowser(b));
    Takes(Underway(s, b, Serving(true, false), a, m), a, m, ok);
  }

  /** A request of a browser with a session reaches that session. */
  lemma RequestArrives(before: seq<Event>, b: BConn, sid: Sid, a: AConn, ok: bool)
    requires var s := Exec(before);
      Connected(s, b, sid, a, true) && sid in s.conns[a].sessions
    ensures var s := Exec(before);
      ExecFrom(s, [BrowserSends(b, Relay, true), AgentTakes(a, ok)])
      == s.(log := s.log.(handled := s.log.handled + [Handled(b, b)]))
  {
    var s := Exec(before);
    SessionIsOwn(before, b, sid, a);
    TwoEvents(s, BrowserSends(b, Relay, true), AgentTakes(a, ok));
    RequestGoesOut(s, b, sid, a);
    var m := Msg(sid, Relay, FromBrowser(b));
    var u := Underway(s, b, Serving(true, false), a, m);
    Takes(u, a, m, ok);
    assert u.conns[a := s.conns[a]] == s.conns && u.tabs == s.tabs;
  }

  lemma SessionIsOwn(before: seq<Event>, b: BConn, sid: Sid, a: AConn)
    requires Connected(Exec(before), b, sid, a, true) && sid in Exec(before).conns[a].sessions
    ensures Exec(before).conns[a].sessions[sid] == b
  {
    ExecKeeps(before);
    var s := Exec(before);
    assert ConnOk(s.hist, a, s.conns[a]) && TabOk(s.hist, b, s.tabs[b]);
    assert Bound(s.hist, a, sid, s.conns[a].sessions[sid]);
  }

  /** The oldest message that this agent connection has sent is the one given. */
  ghost predicate HasSent(s: State, a: AConn, m: Msg) {
    a in s.conns && s.conns[a].phase.Reading? && s.conns[a].up != [] && s.conns[a].up[0] == m
  }

  /** An answer, a relayed result or an error for a browser that is listed for the agent's device is
      written to that browser, once, and nothing else happens. */
  lemma MessageIsShown(before: seq<Event>, a: AConn, sid: Sid, kind: Kind, origin: Origin, b: BConn)
    requires var s := Exec(before);
      && HasSent(s, a, Msg(sid, kind, origin)) && (kind.Answer? || kind.Relay? || kind.Error?)
      && sid in s.browsers && s.browsers[sid] == Entry(b, s.conns[a].dev) && b in s.tabs && s.tabs[b].open
    ensures var s := Exec(before);
      var c := s.conns[a];
      ExecFrom(s, [AgentPicks(a), AgentDelivers(a)])
      == s.(conns := s.conns[a := c.(up := c.up[1..])],
            log := s.log.(shown := s.log.shown + [Shown(b, c.dev, origin)]))
  {
    var s := Exec(before);
    TwoEvents(s, AgentPicks(a), AgentDelivers(a));
    PicksAndDelivers(s, a, Msg(sid, kind, origin), b);
  }

  lemma PicksAndDelivers(s: State, a: AConn, m: Msg, b: BConn)
    requires HasSent(s, a, m) && (m.kind.Answer? || m.kind.Relay? || m.kind.Error?)
    requires m.sid in s.browsers && s.browsers[m.sid] == Entry(b, s.conns[a].dev) && b in s.tabs && s.tabs[b].open
    ensures var c := s.conns[a];
      Step(Step(s, AgentPicks(a)), AgentDelivers(a))
      == s.(conns := s.conns[a := c.(up := c.up[1..])],
            log := s.log.(shown := s.log.shown + [Shown(b, c.dev, m.origin)]))
  {
    var c := s.conns[a];
    assert Step(s, AgentPicks(a)) == s.(conns := s.conns[a := c.(up := c.up[1..], phase := Delivering(b, m))]);
  }

  /** For a browser whose connection is closed meanwhile it is lost, and nothing else happens. */
  lemma MessageToClosedBrowserIsLost(before: seq<Event>, a: AConn, m: Msg, b: BConn)
    requires var s := Exec(before);
      && HasSent(s, a, m) && m.sid in s.browsers && s.browsers[m.sid] == Entry(b, s.conns[a].dev)
      && b in s.tabs && !s.tabs[b].open
    ensures var s := Exec(before);
      ExecFrom(s, [AgentPicks(a), AgentDelivers(a)])
      == s.(conns := s.conns[a := s.conns[a].(up := s.conns[a].up[1..])])
  {
    var s := Exec(before);
    TwoEvents(s, AgentPicks(a), AgentDelivers(a));
    var c := s.conns[a];
    if m.kind.Answer? || m.kind.Relay? || m.kind.Error? {
      assert Step(s, AgentPicks(a)) == s.(conns := s.conns[a := c.(up := c.up[1..], phase := Delivering(b, m))]);
    } else {
      assert Step(s, AgentPicks(a)) == s.(conns := s.conns[a := c.(up := c.up[1..])]);
    }
  }

  /** So whatever a session sends comes to the browser it was made for. */
  lemma ResultComesBack(before: seq<Event>, a: AConn, sid: Sid, b: BConn, kind: Kind)
    requires var s := Exec(before);
      && a in s.conns && s.conns[a].phase.Reading? && s.conns[a].up == []
      && (a, sid, b) in s.hist.made && (kind.Answer? || kind.Relay? || kind.Error?)
      && sid in s.browsers && s.browsers[sid] == Entry(b, s.conns[a].dev) && b in s.tabs && s.tabs[b].open
    ensures var s := Exec(before);
      ExecFrom(s, [SessionSends(a, sid, b, kind), AgentPicks(a), AgentDelivers(a)])
      == s.(log := s.log.(shown := s.log.shown + [Shown(b, s.conns[a].dev, FromSession(b))]))
  {
    var s := Exec(before);
    var m := Msg(sid, kind, FromSession(b));
    ThreeEvents(s, SessionSends(a, sid, b, kind), AgentPicks(a), AgentDelivers(a));
    SendsUp(s, a, sid, b, kind);
    var c := s.conns[a];
    PicksAndDelivers(s.(conns := s.conns[a := c.(up := [m])]), a, m, b);
    assert [m][1..] == [];
    assert s.conns[a := c.(up := [m])][a := c] == s.conns;
  }

  lemma SendsUp(s: State, a: AConn, sid: Sid, b: BConn, kind: Kind)
    requires a in s.conns && s.conns[a].up == [] && (a, sid, b) in s.hist.made
    ensures Step(s, SessionSends(a, sid, b, kind))
         == s.(conns := s.conns[a := s.conns[a].(up := [Msg(sid, kind, FromSession(b))])])
  {
    assert s.conns[a].up + [Msg(sid, kind, FromSession(b))] == [Msg(sid, kind, FromSession(b))];
  }

  /** Any other message is read and dropped. */
  lemma MessageIsDropped(before: seq<Event>, a: AConn, m: Msg)
    requires var s := Exec(before);
      && HasSent(s, a, m)
      && (m.kind.Offer? || m.kind.Close? || m.kind.Ping?
          || m.sid !in s.browsers || s.browsers[m.sid].device != s.conns[a].dev)
    ensures var s := Exec(before);
      Step(s, AgentPicks(a)) == s.(conns := s.conns[a := s.conns[a].(up := s.conns[a].up[1..])])
  {
  }

  /** When the browser leaves, its session at the agent ends and its entry goes. */
  lemma BrowserLeavesNothing(before: seq<Event>, b: BConn, sid: Sid, a: AConn, offered: bool, ok: bool)
    requires Connected(Exec(before), b, sid, a, offered)
    ensures var s := Exec(before);
      var c := s.conns[a];
      Step(ExecFrom(s, [BrowserQuits(b), TellAgent(b), Unlist(b)]), AgentTakes(a, ok))
      == s.(tabs := s.tabs[b := Tab(false, Over)], browsers := s.browsers - {sid},
            conns := s.conns[a := c.(sessions := c.sessions - {sid})])
  {
    var s := Exec(before);
    ThreeEvents(s, BrowserQuits(b), TellAgent(b), Unlist(b));
    BrowserWithdraws(s, b, sid, a, offered);
    var m := Msg(sid, Close, FromBrowser(b));
    var t := Underway(s, b, Over, a, m).(tabs := s.tabs[b := Tab(false, Over)], browsers := s.browsers - {sid});
    Takes(t, a, m, ok);
  }

  lemma BrowserWithdraws(s: State, b: BConn, sid: Sid, a: AConn, offered: bool)
    requires Connected(s, b, sid, a, offered)
    ensures Step(Step(Step(s, BrowserQuits(b)), TellAgent(b)), Unlist(b))
         == Underway(s, b, Over, a, Msg(sid, Close, FromBrowser(b))).(
              tabs := s.tabs[b := Tab(false, Over)], browsers := s.browsers - {sid})
  {
    var m := Msg(sid, Close, FromBrowser(b));
    var s1 := s.(tabs := s.tabs[b := Tab(true, Quitting)]);
    assert Step(s, BrowserQuits(b)) == s1;
    assert s.conns[a].down + [m] == [m];
    var s2 := Underway(s, b, Unlisting, a, m);
    assert Step(s1, TellAgent(b)) == s2;
    Unlists(s2, b, sid);
  }

  lemma Unlists(s: State, b: BConn, sid: Sid)
    requires b in s.tabs && s.tabs[b].phase.Unlisting? && b in s.hist.link && s.hist.link[b].sid == sid
    ensures Step(s, Unlist(b)) == s.(tabs := s.tabs[b := Tab(false, Over)], browsers := s.browsers - {sid})
  {
  }

  // ---- the server's own sessions ----

  /** For the server itself the handler holds the session: the first offer opens it, a request goes
      to it, and what it sends is written to the browser. */
  lemma LocalSessionWorks(before: seq<Event>, b: BConn)
    requires var s := Exec(before);
      && b in s.tabs && s.tabs[b] == Tab(true, Serving(false, false))
      && b in s.hist.link && s.hist.link[b].dev == CLOUD
    ensures var s := Exec(before);
      ExecFrom(s, [BrowserSends(b, Offer, true), BrowserSends(b, Relay, true), LocalSends(b)])
      == s.(tabs := s.tabs[b := Tab(true, Serving(true, true))],
            log := Log(s.log.handled + [Handled(b, b)], s.log.shown + [Shown(b, CLOUD, FromSession(b))]))
  {
    var s := Exec(before);
    ThreeEvents(s, BrowserSends(b, Offer, true), BrowserSends(b, Relay, true), LocalSends(b));
    var s1 := s.(tabs := s.tabs[b := Tab(true, Serving(true, true))]);
    assert Step(s, BrowserSends(b, Offer, true)) == s1;
    assert Step(s1, BrowserSends(b, Relay, true))
        == s1.(log := s.log.(handled := s.log.handled + [Handled(b, b)]));
  }

  // ---- nobody acts out of turn ----

  /** A browser whose connection is closed or that is not served sends nothing; only a handler with a
      session of its own writes for one; the agent is told before the entry goes. */
  lemma BrowsersInTurn(s: State, b: BConn, kind: Kind, ok: bool)
    requires b in s.tabs
    ensures !s.tabs[b].open || !s.tabs[b].phase.Serving? ==>
      Step(s, BrowserSends(b, kind, ok)) == s && Step(s, LocalSends(b)) == s
    ensures s.tabs[b].phase.Serving? && !s.tabs[b].phase.local ==> Step(s, LocalSends(b)) == s
    ensures !s.tabs[b].phase.Serving? ==> Step(s, BrowserQuits(b)) == s
    ensures !s.tabs[b].phase.Quitting? ==> Step(s, TellAgent(b)) == s
    ensures !s.tabs[b].phase.Unlisting? ==> Step(s, Unlist(b)) == s
  {
  }

  /** A connection registers once, closes its predecessor before it reads, finishes a message before the
      next, and is cleaned up after it has ended. */
  lemma AgentsInTurn(s: State, a: AConn)
    requires a in s.conns
    ensures !s.conns[a].phase.Upgraded? ==> Step(s, AgentRegisters(a)) == s
    ensures !s.conns[a].phase.Replacing? ==> Step(s, ClosePredecessor(a)) == s
    ensures !s.conns[a].phase.Reading? ==> Step(s, AgentPicks(a)) == s && Step(s, AgentQuits(a)) == s
    ensures !s.conns[a].phase.Delivering? ==> Step(s, AgentDelivers(a)) == s
    ensures !s.conns[a].phase.Leaving? ==> Step(s, AgentCleansUp(a)) == s
    ensures forall ok :: !s.conns[a].alive ==> Step(s, AgentTakes(a, ok)) == s
  {
  }
}
