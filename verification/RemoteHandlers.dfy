/** The read loops at the two ends of a routed session: the server's handler of one browser
    and the agent's loop over one connection, each with its own variables. `m` follows all
    parties; each method handles one message. */
module RemoteHandlers {
  import opened Prelude
  import opened RemoteModel
  import opened RemoteRouting

  /** The message is the newest in the queue of this agent connection. */
  ghost predicate Sends(s: State, t: State, agent: Option<AConn>, msg: Msg) {
    && agent.Some? && agent.value in s.conns && agent.value in t.conns
    && t.conns[agent.value].down == s.conns[agent.value].down + [msg]
  }

  lemma LinkIsOk(s: State, b: BConn)
    requires TabsOk(s) && b in s.tabs && b in s.hist.link
    ensures AgentFits(s.hist, s.hist.link[b].dev, s.hist.link[b].agent)
  {
    assert TabOk(s.hist, b, s.tabs[b]);
  }

  ghost predicate Reachable(s: State, l: Link) {
    l.agent.Some? && l.agent.value in s.conns && s.conns[l.agent.value].open
  }

  /** The handler goes on after this message. */
  ghost predicate GoesOn(s: State, l: Link, offered: bool, kind: Kind, ok: bool) {
    match kind
    case Offer => !offered && ok && (l.dev == CLOUD || Reachable(s, l))
    case Relay => offered && (l.dev == CLOUD || Reachable(s, l))
    case Ping => true
    case _ => false
  }

  lemma WriteSteps(s: State, b: BConn, l: Link, kind: Kind, done: BrowserPhase, failed: BrowserPhase)
    requires b in s.tabs && l.agent.Some?
    ensures var t := Write(s, b, l, kind, done, failed);
      && t.hist == s.hist && b in t.tabs && t.tabs[b].phase == (if Reachable(s, l) then done else failed)
      && (Reachable(s, l) ==> Sends(s, t, l.agent, Msg(l.sid, kind, FromBrowser(b))))
  {
    if Reachable(s, l) {
      var c := s.conns[l.agent.value];
      var next := c.(down := c.down + [Msg(l.sid, kind, FromBrowser(b))]);
      assert Write(s, b, l, kind, done, failed) == TabAt(s, b, done).(conns := s.conns[l.agent.value := next]);
    }
  }

  /** The handler's next phase, and what it writes to the agent, told from its own variables. */
  lemma RequestSteps(s: State, b: BConn, l: Link, kind: Kind, ok: bool)
    requires b in s.tabs && s.tabs[b].phase.Serving? && (l.agent.None? <==> l.dev == CLOUD)
    requires s.tabs[b].phase.local <==> s.tabs[b].phase.offered && l.dev == CLOUD
    ensures var t, p := Request(s, b, l, kind, ok), s.tabs[b].phase;
      && t.hist == s.hist && b in t.tabs
      && t.tabs[b].phase == (if !GoesOn(s, l, p.offered, kind, ok) then Quitting
                             else if kind.Offer? then Serving(true, l.dev == CLOUD) else p)
      && (GoesOn(s, l, p.offered, kind, ok) && l.dev != CLOUD && !kind.Ping? ==>
           Sends(s, t, l.agent, Msg(l.sid, kind, FromBrowser(b))))
  {
    if l.dev != CLOUD {
      WriteSteps(s, b, l, Offer, Serving(true, false), Quitting);
      WriteSteps(s, b, l, Relay, s.tabs[b].phase, Quitting);
    }
  }

  lemma StepIsRequest(s: State, b: BConn, kind: Kind, ok: bool)
    requires b in s.tabs && b in s.hist.link && s.tabs[b].open && s.tabs[b].phase.Serving?
    ensures Step(s, BrowserSends(b, kind, ok)) == Request(s, b, s.hist.link[b], kind, ok)
  {
  }

  class BrowserHandler {
    const conn: BConn
    const sid: Sid
    const device: Dev
    const agent: Option<AConn>   // the agent connection looked up at the start
    var offered: bool
    var local: bool              // holds a session of its own
    ghost var m: State

    ghost predicate Valid() reads this {
      Linked() && m.tabs[conn].phase == Serving(offered, local) && (local <==> offered && device == CLOUD)
    }

    ghost predicate Linked() reads this {
      Inv(m) && conn in m.tabs && conn in m.hist.link && m.hist.link[conn] == Link(sid, device, agent)
    }

    /** The handler right after its registration. */
    constructor (ghost s: State, b: BConn, l: Link)
      requires Inv(s) && b in s.tabs && b in s.hist.link && s.hist.link[b] == l
      requires s.tabs[b].phase == Serving(false, false)
      ensures Valid() && m == s && !offered && !local && conn == b
      ensures sid == l.sid && device == l.dev && agent == l.agent
    {
      conn, sid, device, agent := b, l.sid, l.dev, l.agent;
      offered, local := false, false;
      m := s;
    }

    /** One message of the browser. `ok`: the offer parses and a session of the server's own
        starts; `reachable`: a write to the agent connection works. The session id is the
        handler's own, whatever the browser wrote. */
    method Request(kind: Kind, ok: bool, reachable: bool) returns (goesOn: bool, sent: Option<Msg>)
      requires Valid() && m.tabs[conn].open
      requires reachable <==> agent.Some? && agent.value in m.conns && m.conns[agent.value].open
      modifies this
      ensures Linked() && m == Step(old(m), BrowserSends(conn, kind, ok))
      ensures goesOn <==>
        || (kind.Offer? && !old(offered) && ok && (device == CLOUD || reachable))
        || (kind.Relay? && old(offered) && (device == CLOUD || reachable))
        || kind.Ping?
      ensures goesOn ==> Valid() && (offered <==> old(offered) || kind.Offer?)
      ensures !goesOn ==> m.tabs[conn].phase.Quitting?
      ensures sent == if goesOn && device != CLOUD && !kind.Ping? then Some(Msg(sid, kind, FromBrowser(conn))) else None
      ensures sent.Some? ==> Sends(old(m), m, agent, sent.value)
    {
      LinkIsOk(m, conn);
      RequestSteps(m, conn, m.hist.link[conn], kind, ok);
      StepIsRequest(m, conn, kind, ok);
      StepKeeps(m, BrowserSends(conn, kind, ok));
      m := Step(m, BrowserSends(conn, kind, ok));
      sent := None;
      match kind {
        case Offer =>
          if offered || !ok {
            return false, None;
          }
          offered := true;
          if device == CLOUD {
            local := true;
            return true, None;
          }
        case Relay =>
          if !offered {
            return false, None;
          }
          if local {
            return true, None;
          }
        case Ping =>
          return true, None;
        case _ =>
          return false, None;
      }
      if !reachable {
        return false, None;
      }
      sent := Some(Msg(sid, kind, FromBrowser(conn)));
      goesOn := true;
    }
  }

  /** The agent's loop: its table of sessions, each made for the browser whose offer it was. */
  class AgentLoop {
    const conn: AConn
    var sessions: map<Sid, BConn>
    ghost var m: State

    ghost predicate Valid() reads this {
      Inv(m) && conn in m.conns && m.conns[conn].alive && m.conns[conn].sessions == sessions
    }

    constructor (ghost s: State, a: AConn)
      requires Inv(s) && a in s.conns && s.conns[a].alive && s.conns[a].sessions == map[]
      ensures Valid() && m == s && conn == a && sessions == map[]
    {
      conn, sessions, m := a, map[], s;
    }

    /** One message of the server. `ok`: a session can be created. The result is the session
        that a relayed request is given to, which is always the one of the browser that
        sent it, and the error that is sent back. */
    method Take(msg: Msg, ok: bool) returns (reached: Option<BConn>, error: Option<Sid>)
      requires Valid() && m.conns[conn].down != [] && m.conns[conn].down[0] == msg
      modifies this
      ensures Valid() && m == Step(old(m), AgentTakes(conn, ok)) && |sessions| <= MAX_SESSIONS
      ensures reached == if msg.kind.Relay? && msg.sid in old(sessions) then Some(msg.origin.b) else None
      ensures m.log.handled ==
        old(m).log.handled + (if reached.Some? then [Handled(reached.value, reached.value)] else [])
      ensures error.Some? <==> msg.kind.Offer? && (msg.sid in old(sessions) || |old(sessions)| >= 8 || !ok)
      ensures error.Some? ==>
        m.conns[conn].up == old(m).conns[conn].up + [Msg(error.value, Error, FromSession(msg.origin.b))]
      ensures sessions ==
        if msg.kind.Offer? && error.None? then old(sessions)[msg.sid := msg.origin.b]
        else if msg.kind.Close? then old(sessions) - {msg.sid}
        else old(sessions)
    {
      TakeEffects(m, conn, msg, ok);
      TakeTable(m.conns[conn], msg, ok);
      m := Step(m, AgentTakes(conn, ok));
      reached, error := None, None;
      match msg.kind {
        case Offer =>
          if msg.sid in sessions || |sessions| >= MAX_SESSIONS || !ok {
            error := Some(msg.sid);
          } else {
            sessions := sessions[msg.sid := msg.origin.b];
          }
        case Relay =>
          if msg.sid in sessions {
            reached := Some(sessions[msg.sid]);
          }
        case Close =>
          sessions := sessions - {msg.sid};
        case _ =>
      }
    }
  }

  /** What the invariant says of an agent's next message and of its sessions. */
  lemma ConnIsOk(s: State, a: AConn, msg: Msg)
    requires Inv(s) && a in s.conns && s.conns[a].down != [] && s.conns[a].down[0] == msg
    ensures msg.origin.FromBrowser?
    ensures msg.sid in s.conns[a].sessions ==> s.conns[a].sessions[msg.sid] == msg.origin.b
  {
    assert ConnOk(s.hist, a, s.conns[a]) && DownOk(s.hist, a, msg);
    if msg.sid in s.conns[a].sessions { assert Bound(s.hist, a, msg.sid, s.conns[a].sessions[msg.sid]); }
  }

  ghost predicate TakeOpens(c: Conn, msg: Msg, ok: bool) {
    msg.kind.Offer? && msg.sid !in c.sessions && |c.sessions| < MAX_SESSIONS && ok
  }

  lemma TakeTable(c: Conn, msg: Msg, ok: bool)
    requires c.down != [] && c.down[0] == msg && msg.origin.FromBrowser?
    ensures TakeConn(c, ok).alive == c.alive
    ensures TakeConn(c, ok).sessions ==
      if TakeOpens(c, msg, ok) then c.sessions[msg.sid := msg.origin.b]
      else if msg.kind.Close? then c.sessions - {msg.sid} else c.sessions
    ensures TakeConn(c, ok).up == c.up
      + (if msg.kind.Offer? && !TakeOpens(c, msg, ok) then [Msg(msg.sid, Error, FromSession(msg.origin.b))] else [])
  {
  }

  lemma TakeLog(s: State, a: AConn, c: Conn, msg: Msg, ok: bool)
    requires c.down != [] && c.down[0] == msg && msg.origin.FromBrowser?
    ensures Take(s, a, c, ok).conns == s.conns[a := TakeConn(c, ok)]
    ensures Take(s, a, c, ok).log.handled == s.log.handled
      + (if msg.kind.Relay? && msg.sid in c.sessions then [Handled(msg.origin.b, c.sessions[msg.sid])] else [])
  {
  }

  lemma StepIsTake(s: State, a: AConn, ok: bool)
    requires a in s.conns && s.conns[a].alive && s.conns[a].down != []
    ensures Step(s, AgentTakes(a, ok)) == Take(s, a, s.conns[a], ok)
  {
  }

  lemma FewSessions(s: State, a: AConn)
    requires ConnsOk(s) && a in s.conns
    ensures |s.conns[a].sessions| <= MAX_SESSIONS
  {
    assert ConnOk(s.hist, a, s.conns[a]);
  }

  /** The step of the agent, for the three parts of the state that it touches. */
  lemma TakeEffects(s: State, a: AConn, msg: Msg, ok: bool)
    requires Inv(s) && a in s.conns && s.conns[a].alive && s.conns[a].down != [] && s.conns[a].down[0] == msg
    ensures var t, c := Step(s, AgentTakes(a, ok)), s.conns[a];
      && Inv(t) && a in t.conns && t.conns[a] == TakeConn(c, ok) && |t.conns[a].sessions| <= MAX_SESSIONS
      && t.log.handled == s.log.handled
           + (if msg.kind.Relay? && msg.sid in c.sessions then [Handled(msg.origin.b, c.sessions[msg.sid])] else [])
    ensures msg.origin.FromBrowser?
    ensures msg.sid in s.conns[a].sessions ==> s.conns[a].sessions[msg.sid] == msg.origin.b
  {
    ConnIsOk(s, a, msg);
    StepIsTake(s, a, ok);
    TakeLog(s, a, s.conns[a], msg, ok);
    StepKeeps(s, AgentTakes(a, ok));
    FewSessions(Step(s, AgentTakes(a, ok)), a);
  }
}
