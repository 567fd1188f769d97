/** Routing of remote sessions: browsers and device agents hold WebSocket
    connections to the server, the server's hub relays between them, and each agent
    connection owns the sessions its browsers asked for. Connections come, are
    replaced and go in any order; every event below is one atomic action of one
    handler, and impossible events change nothing.

    Messages carry the session id that the code puts into them. The `origin` of a
    message is not in the code: it records where the message really came from, so
    that routing by session id can be compared with it. */
module RemoteModel {
  import opened Prelude

  type Dev = int    // device id
  type Sid = int    // session id (a fresh token)
  type AConn = int  // a connection of an agent
  type BConn = int  // a connection of a browser

  const CLOUD: Dev := 0       // the server itself: its sessions run in the handler
  const MAX_SESSIONS := 8     // per agent connection
  const MAX_BROWSERS := 32    // in the hub's table when a browser arrives

  datatype Kind = Offer | Relay | Close | Answer | Error | Ping
  datatype Origin = FromBrowser(b: BConn) | FromSession(b: BConn) | Forged
  datatype Msg = Msg(sid: Sid, kind: Kind, origin: Origin)

  datatype BrowserPhase =
    | Admitted(dev: Dev, agent: Option<AConn>)  // looked the agent up, not yet registered
    | Serving(offered: bool, local: bool)
    | Quitting                                  // about to tell the agent
    | Unlisting                                 // about to delete its entry
    | Over

  datatype AgentPhase =
    | Upgraded
    | Replacing(prior: Option<AConn>)   // registered, about to close its predecessor
    | Reading
    | Delivering(to: BConn, msg: Msg)   // found the browser, about to write to it
    | Leaving                           // connection closed, clean-up not yet run
    | Finished

  /** One browser connection. */
  datatype Tab = Tab(open: bool, phase: BrowserPhase) {
    predicate Listed() { phase.Serving? || phase.Quitting? || phase.Unlisting? }
  }

  /** One agent connection: the server's handler, the messages in flight each way, and
      the session table at the agent's end (gone once the agent drops). */
  datatype Conn = Conn(
    dev: Dev, open: bool, phase: AgentPhase,
    down: seq<Msg>, up: seq<Msg>,
    alive: bool, sessions: map<Sid, BConn>)

  datatype Entry = Entry(conn: BConn, device: Dev)
  datatype Link = Link(sid: Sid, dev: Dev, agent: Option<AConn>)

  /** What never changes once written. */
  datatype History = History(
    device: map<AConn, Dev>,             // what each agent connection authenticated as
    link: map<BConn, Link>,              // what each browser connection registered with
    owner: map<Sid, BConn>,              // which browser connection drew each session id
    made: set<(AConn, Sid, BConn)>)      // every session an agent ever created

  datatype Handled = Handled(sender: BConn, session: BConn)
  datatype Shown = Shown(to: BConn, dev: Dev, origin: Origin)

  datatype Log = Log(
    handled: seq<Handled>,   // relayed requests that reached a session
    shown: seq<Shown>)       // messages written to browsers

  datatype State = State(
    agents: map<Dev, AConn>,      // the hub's agents
    browsers: map<Sid, Entry>,    // the hub's browsers
    latest: map<Dev, AConn>,      // the last agent connection to register (not in the code)
    conns: map<AConn, Conn>,
    tabs: map<BConn, Tab>,
    hist: History,
    log: Log)

  datatype Event =
    | AgentConnects(a: AConn, d: Dev)
    | AgentRegisters(a: AConn)
    | ClosePredecessor(a: AConn)
    | AgentPicks(a: AConn)         // reads a message and looks its browser up
    | AgentDelivers(a: AConn)
    | AgentQuits(a: AConn)         // read error, lost authorisation
    | AgentCleansUp(a: AConn)
    | AgentDrops(a: AConn)         // the agent's own end goes away
    | AgentTakes(a: AConn, ok: bool)                        // the agent handles its next message
    | SessionSends(a: AConn, sid: Sid, b: BConn, kind: Kind)  // answer or result, perhaps late
    | AgentForges(a: AConn, sid: Sid, kind: Kind)           // a misbehaving agent writes what it likes
    | BrowserArrives(b: BConn, d: Dev)
    | BrowserRegisters(b: BConn, sid: Sid)
    | BrowserSends(b: BConn, kind: Kind, ok: bool)
    | LocalSends(b: BConn)
    | BrowserQuits(b: BConn)
    | TellAgent(b: BConn)
    | Unlist(b: BConn)

  const INITIAL := State(map[], map[], map[], map[], map[], History(map[], map[], map[], {}), Log([], []))

  // ---- the server's agent handler ----

  /** Only answers, relayed results and errors are routed, and only to a browser that is
      registered for this agent's device. */
  predicate Routable(s: State, c: Conn, m: Msg) {
    && (m.kind.Answer? || m.kind.Relay? || m.kind.Error?)
    && m.sid in s.browsers && s.browsers[m.sid].device == c.dev
  }

  /** The deferred clean-up: only the current registration is withdrawn, and only then
      are the device's browsers closed. */
  function CleanUp(s: State, a: AConn, c: Conn): State {
    var t := s.(conns := s.conns[a := c.(phase := Finished)]);
    if c.dev in s.agents && s.agents[c.dev] == a then
      t.(agents := s.agents - {c.dev},
         tabs := map b | b in s.tabs :: CloseIfServing(s, b, s.tabs[b], c.dev))
    else t
  }

  function CloseIfServing(s: State, b: BConn, tab: Tab, d: Dev): Tab {
    if b in s.hist.link && s.hist.link[b].sid in s.browsers && s.browsers[s.hist.link[b].sid] == Entry(b, d)
    then tab.(open := false) else tab
  }

  /** The new connection closes the one it replaced, after releasing the hub's lock. */
  function ClosePrior(s: State, a: AConn, c: Conn): State
    requires c.phase.Replacing?
  {
    var conns := s.conns[a := c.(phase := Reading)];
    if c.phase.prior.Some? && c.phase.prior.value in conns then
      var p := c.phase.prior.value;
      s.(conns := conns[p := conns[p].(open := false)])
    else s.(conns := conns)
  }

  function ServerStep(s: State, a: AConn, c: Conn, e: Event): State {
    match e
    case AgentRegisters(_) =>
      if c.phase.Upgraded? then
        s.(conns := s.conns[a := c.(phase := Replacing(if c.dev in s.agents then Some(s.agents[c.dev]) else None))],
           agents := s.agents[c.dev := a], latest := s.latest[c.dev := a])
      else s
    case ClosePredecessor(_) => if c.phase.Replacing? then ClosePrior(s, a, c) else s
    case AgentPicks(_) =>
      if c.phase.Reading? && c.up != [] then
        var m := c.up[0];
        if Routable(s, c, m) then
          s.(conns := s.conns[a := c.(up := c.up[1..], phase := Delivering(s.browsers[m.sid].conn, m))])
        else s.(conns := s.conns[a := c.(up := c.up[1..])])
      else s
    case AgentDelivers(_) =>
      if c.phase.Delivering? then
        var t := s.(conns := s.conns[a := c.(phase := Reading)]);
        if c.phase.to in s.tabs && s.tabs[c.phase.to].open then
          t.(log := s.log.(shown := s.log.shown + [Shown(c.phase.to, c.dev, c.phase.msg.origin)]))
        else t
      else s
    case AgentQuits(_) =>
      if c.phase.Reading? then s.(conns := s.conns[a := c.(phase := Leaving, open := false)]) else s
    case AgentCleansUp(_) => if c.phase.Leaving? then CleanUp(s, a, c) else s
    case _ => s
  }

  // ---- the agent's end of a connection ----

  /** The agent creates a session for its next message. */
  predicate Opens(c: Conn, ok: bool)
    requires c.down != []
  {
    var m := c.down[0];
    m.kind.Offer? && m.origin.FromBrowser? && m.sid !in c.sessions && |c.sessions| < MAX_SESSIONS && ok
  }

  /** An offer that cannot be served is answered with an error; the server only passes on
      offers that parse. */
  function TakeConn(c: Conn, ok: bool): Conn
    requires c.down != []
  {
    var m := c.down[0];
    var rest := c.(down := c.down[1..]);
    match m.kind
    case Offer =>
      if Opens(c, ok) then rest.(sessions := c.sessions[m.sid := m.origin.b])
      else rest.(up := c.up + [Msg(m.sid, Error, if m.origin.FromBrowser? then FromSession(m.origin.b) else Forged)])
    case Close => rest.(sessions := c.sessions - {m.sid})
    case _ => rest
  }

  function Take(s: State, a: AConn, c: Conn, ok: bool): State
    requires c.down != []
  {
    var m := c.down[0];
    var t := s.(conns := s.conns[a := TakeConn(c, ok)]);
    if Opens(c, ok) then t.(hist := s.hist.(made := s.hist.made + {(a, m.sid, m.origin.b)}))
    else if m.kind.Relay? && m.sid in c.sessions && m.origin.FromBrowser? then
      t.(log := s.log.(handled := s.log.handled + [Handled(m.origin.b, c.sessions[m.sid])]))
    else t
  }

  function AgentStep(s: State, a: AConn, c: Conn, e: Event): State {
    match e
    case AgentDrops(_) => s.(conns := s.conns[a := c.(alive := false, sessions := map[], open := false)])
    case AgentTakes(_, ok) => if c.alive && c.down != [] then Take(s, a, c, ok) else s
    case SessionSends(_, sid, b, kind) =>
      if (a, sid, b) in s.hist.made then
        s.(conns := s.conns[a := c.(up := c.up + [Msg(sid, kind, FromSession(b))])])
      else s
    case AgentForges(_, sid, kind) => s.(conns := s.conns[a := c.(up := c.up + [Msg(sid, kind, Forged)])])
    case _ => s
  }

  // ---- the server's browser handler ----

  function TabAt(s: State, b: BConn, p: BrowserPhase): State
    requires b in s.tabs
  {
    s.(tabs := s.tabs[b := s.tabs[b].(phase := p)])
  }

  /** Write to the agent connection that the handler looked up when it started, then go on
      as `done`, or as `failed` if that connection is closed. */
  function Write(s: State, b: BConn, l: Link, kind: Kind, done: BrowserPhase, failed: BrowserPhase): State
    requires b in s.tabs
  {
    if l.agent.None? then TabAt(s, b, done)
    else if l.agent.value in s.conns && s.conns[l.agent.value].open then
      var c := s.conns[l.agent.value];
      TabAt(s, b, done).(
        conns := s.conns[l.agent.value := c.(down := c.down + [Msg(l.sid, kind, FromBrowser(b))])])
    else TabAt(s, b, failed)
  }

  function Request(s: State, b: BConn, l: Link, kind: Kind, ok: bool): State
    requires b in s.tabs && s.tabs[b].phase.Serving?
  {
    var p := s.tabs[b].phase;
    match kind
    case Offer =>
      if p.offered || !ok then TabAt(s, b, Quitting)
      else if l.dev == CLOUD then TabAt(s, b, Serving(true, true))
      else Write(s, b, l, Offer, Serving(true, false), Quitting)
    case Relay =>
      if !p.offered then TabAt(s, b, Quitting)
      else if p.local then s.(log := s.log.(handled := s.log.handled + [Handled(b, b)]))
      else Write(s, b, l, Relay, p, Quitting)
    case Ping => s      // answered with a pong
    case _ => TabAt(s, b, Quitting)
  }

  function BrowserStep(s: State, b: BConn, l: Link, e: Event): State
    requires b in s.tabs
  {
    var tab := s.tabs[b];
    match e
    case BrowserSends(_, kind, ok) => if tab.phase.Serving? && tab.open then Request(s, b, l, kind, ok) else s
    case LocalSends(_) =>
      if tab.phase.Serving? && tab.phase.local && tab.open then
        s.(log := s.log.(shown := s.log.shown + [Shown(b, l.dev, FromSession(b))]))
      else s
    case BrowserQuits(_) => if tab.phase.Serving? then TabAt(s, b, Quitting) else s
    case TellAgent(_) =>
      if tab.phase.Quitting? then Write(s, b, l, Close, Unlisting, Unlisting) else s
    case Unlist(_) =>
      if tab.phase.Unlisting? then
        s.(tabs := s.tabs[b := Tab(false, Over)], browsers := s.browsers - {l.sid})
      else s
    case _ => s
  }

  // ---- all parties together ----

  predicate OfServer(e: Event) {
    e.AgentRegisters? || e.ClosePredecessor? || e.AgentPicks? || e.AgentDelivers? || e.AgentQuits? || e.AgentCleansUp?
  }

  predicate OfAgent(e: Event) { e.AgentDrops? || e.AgentTakes? || e.SessionSends? || e.AgentForges? }

  predicate OfBrowser(e: Event) {
    e.BrowserSends? || e.LocalSends? || e.BrowserQuits? || e.TellAgent? || e.Unlist?
  }

  function Connect(s: State, a: AConn, d: Dev): State {
    if a !in s.conns && a !in s.hist.device && d != CLOUD then
      s.(conns := s.conns[a := Conn(d, true, Upgraded, [], [], true, map[])],
         hist := s.hist.(device := s.hist.device[a := d]))
    else s
  }

  function Arrive(s: State, b: BConn, d: Dev): State {
    if b !in s.tabs && |s.browsers| < MAX_BROWSERS && (d == CLOUD || d in s.agents) then
      s.(tabs := s.tabs[b := Tab(true, Admitted(d, if d in s.agents then Some(s.agents[d]) else None))])
    else s
  }

  function Register(s: State, b: BConn, sid: Sid): State {
    if b in s.tabs && s.tabs[b].phase.Admitted? && sid !in s.hist.owner then
      var p := s.tabs[b].phase;
      s.(tabs := s.tabs[b := s.tabs[b].(phase := Serving(false, false))],
         browsers := s.browsers[sid := Entry(b, p.dev)],
         hist := s.hist.(link := s.hist.link[b := Link(sid, p.dev, p.agent)], owner := s.hist.owner[sid := b]))
    else s
  }

  function Step(s: State, e: Event): State {
    if OfServer(e) then if e.a in s.conns then ServerStep(s, e.a, s.conns[e.a], e) else s
    else if OfAgent(e) then if e.a in s.conns then AgentStep(s, e.a, s.conns[e.a], e) else s
    else if OfBrowser(e) then
      if e.b in s.tabs && e.b in s.hist.link then BrowserStep(s, e.b, s.hist.link[e.b], e) else s
    else match e
      case AgentConnects(a, d) => Connect(s, a, d)
      case BrowserArrives(b, d) => Arrive(s, b, d)
      case BrowserRegisters(b, sid) => Register(s, b, sid)
      case _ => s
  }

  function ExecFrom(s: State, events: seq<Event>): State
    decreases |events|
  {
    if events == [] then s else ExecFrom(Step(s, events[0]), events[1..])
  }

  function Exec(events: seq<Event>): State { ExecFrom(INITIAL, events) }

  // ---- invariant ----

  /** sid was drawn by browser connection b, whose handler looked up agent connection a. */
  ghost predicate Bound(h: History, a: AConn, sid: Sid, b: BConn) {
    && sid in h.owner && h.owner[sid] == b
    && b in h.link && h.link[b].sid == sid && h.link[b].agent == Some(a)
  }

  ghost predicate DownOk(h: History, a: AConn, m: Msg) {
    m.origin.FromBrowser? && Bound(h, a, m.sid, m.origin.b)
  }

  ghost predicate UpOk(h: History, a: AConn, m: Msg) {
    m.origin.Forged? || (m.origin.FromSession? && Bound(h, a, m.sid, m.origin.b))
  }

  /** What was written to a browser came from its own device, and unless an agent
      forged it, from the session that this browser's offer created. */
  ghost predicate ShownOk(h: History, r: Shown) {
    && r.to in h.link && h.link[r.to].dev == r.dev
    && (r.origin.Forged? || r.origin == FromSession(r.to))
  }

  ghost predicate ConnOk(h: History, a: AConn, c: Conn) {
    && a in h.device && h.device[a] == c.dev && c.dev != CLOUD
    && (forall i :: 0 <= i < |c.down| ==> DownOk(h, a, c.down[i]))
    && (forall i :: 0 <= i < |c.up| ==> UpOk(h, a, c.up[i]))
    && |c.sessions| <= MAX_SESSIONS
    && (forall sid :: sid in c.sessions ==> Bound(h, a, sid, c.sessions[sid]))
    && (c.phase.Delivering? ==> ShownOk(h, Shown(c.phase.to, c.dev, c.phase.msg.origin)))
  }

  /** The agent entry of a device is its last registration until that one cleans up. */
  ghost predicate DevOk(s: State, d: Dev) {
    && (d in s.latest ==>
         s.latest[d] in s.conns && s.conns[s.latest[d]].dev == d && !s.conns[s.latest[d]].phase.Upgraded?)
    && (d in s.agents <==> d in s.latest && s.latest[d] in s.conns && !s.conns[s.latest[d]].phase.Finished?)
    && (d in s.agents ==> s.agents[d] == s.latest[d])
  }

  /** The handler of a remote device always holds an agent connection of that device. */
  ghost predicate AgentFits(h: History, d: Dev, agent: Option<AConn>) {
    if d == CLOUD then agent.None? else agent.Some? && agent.value in h.device && h.device[agent.value] == d
  }

  ghost predicate TabOk(h: History, b: BConn, tab: Tab) {
    if tab.phase.Admitted? then b !in h.link && AgentFits(h, tab.phase.dev, tab.phase.agent)
    else
      && b in h.link
      && h.link[b].sid in h.owner && h.owner[h.link[b].sid] == b
      && AgentFits(h, h.link[b].dev, h.link[b].agent)
      && (tab.phase.Serving? && tab.phase.offered && h.link[b].dev == CLOUD ==> tab.phase.local)
  }

  ghost predicate SidOk(s: State, sid: Sid) {
    && (sid in s.hist.owner ==>
         && s.hist.owner[sid] in s.hist.link && s.hist.link[s.hist.owner[sid]].sid == sid
         && s.hist.owner[sid] in s.tabs)
    && (sid in s.browsers <==> sid in s.hist.owner && s.hist.owner[sid] in s.tabs && s.tabs[s.hist.owner[sid]].Listed())
    && (sid in s.browsers ==>
         && s.hist.owner[sid] in s.hist.link
         && s.browsers[sid] == Entry(s.hist.owner[sid], s.hist.link[s.hist.owner[sid]].dev))
  }

  ghost predicate MadeOk(h: History) {
    forall t :: t in h.made ==> Bound(h, t.0, t.1, t.2)
  }

  ghost predicate HandledOk(l: Log) {
    forall i :: 0 <= i < |l.handled| ==> l.handled[i].sender == l.handled[i].session
  }

  ghost predicate ScreensOk(h: History, l: Log) {
    forall i :: 0 <= i < |l.shown| ==> ShownOk(h, l.shown[i])
  }

  ghost predicate ConnsOk(s: State) { forall a :: a in s.conns ==> ConnOk(s.hist, a, s.conns[a]) }

  ghost predicate TabsOk(s: State) {
    s.hist.link.Keys <= s.tabs.Keys && forall b :: b in s.tabs ==> TabOk(s.hist, b, s.tabs[b])
  }

  ghost predicate HubOk(s: State) { (forall d: Dev :: DevOk(s, d)) && (forall sid: Sid :: SidOk(s, sid)) }

  ghost predicate RecordsOk(h: History, l: Log) { MadeOk(h) && HandledOk(l) && ScreensOk(h, l) }

  ghost predicate Inv(s: State) { ConnsOk(s) && TabsOk(s) && HubOk(s) && RecordsOk(s.hist, s.log) }

  /** The connection is where it was, on the same side of its registration and clean-up. */
  ghost predicate SameSide(s: State, t: State, x: AConn) {
    && (x in t.conns <==> x in s.conns)
    && (x in s.conns ==>
         && t.conns[x].dev == s.conns[x].dev && (t.conns[x].phase.Upgraded? <==> s.conns[x].phase.Upgraded?)
         && (t.conns[x].phase.Finished? <==> s.conns[x].phase.Finished?))
  }

  lemma SameDevOk(s: State, t: State, d: Dev)
    requires t.agents == s.agents && t.latest == s.latest && DevOk(s, d)
    requires d in s.latest ==> SameSide(s, t, s.latest[d])
    ensures DevOk(t, d)
  {
  }

  lemma SameSidOk(s: State, t: State, sid: Sid)
    requires t.browsers == s.browsers && t.tabs == s.tabs
    requires t.hist.owner == s.hist.owner && t.hist.link == s.hist.link && SidOk(s, sid)
    ensures SidOk(t, sid)
  {
  }

  /** Nothing has happened to the hub's tables and to what they refer to. */
  lemma HubStays(s: State, t: State)
    requires HubOk(s) && t.agents == s.agents && t.latest == s.latest && t.browsers == s.browsers && t.tabs == s.tabs
    requires t.hist.owner == s.hist.owner && t.hist.link == s.hist.link
    requires forall x :: SameSide(s, t, x)
    ensures HubOk(t)
  {
    forall d: Dev ensures DevOk(t, d) {
      assert DevOk(s, d);
      SameDevOk(s, t, d);
    }
    forall sid: Sid ensures SidOk(t, sid) {
      assert SidOk(s, sid);
      SameSidOk(s, t, sid);
    }
  }

  // ---- growth of the history keeps everything that refers to it ----

  ghost predicate Grows(g: History, h: History) {
    && (forall k :: k in g.owner ==> k in h.owner && h.owner[k] == g.owner[k])
    && (forall k :: k in g.link ==> k in h.link && h.link[k] == g.link[k])
    && (forall k :: k in g.device ==> k in h.device && h.device[k] == g.device[k])
  }

  lemma ConnGrows(g: History, h: History, a: AConn, c: Conn)
    requires ConnOk(g, a, c) && Grows(g, h)
    ensures ConnOk(h, a, c)
  {
    forall i | 0 <= i < |c.down| ensures DownOk(h, a, c.down[i]) { assert DownOk(g, a, c.down[i]); }
    forall i | 0 <= i < |c.up| ensures UpOk(h, a, c.up[i]) { assert UpOk(g, a, c.up[i]); }
    forall sid | sid in c.sessions ensures Bound(h, a, sid, c.sessions[sid]) {
      assert Bound(g, a, sid, c.sessions[sid]);
    }
  }

  lemma ScreensGrow(g: History, h: History, l: Log)
    requires ScreensOk(g, l) && Grows(g, h)
    ensures ScreensOk(h, l)
  {
    forall i | 0 <= i < |l.shown| ensures ShownOk(h, l.shown[i]) { assert ShownOk(g, l.shown[i]); }
  }

  lemma MadeGrows(g: History, h: History)
    requires MadeOk(g) && Grows(g, h) && h.made == g.made
    ensures MadeOk(h)
  {
    forall t | t in h.made ensures Bound(h, t.0, t.1, t.2) { assert Bound(g, t.0, t.1, t.2); }
  }
}
