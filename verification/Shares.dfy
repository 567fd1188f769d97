/** The agent's cache of share listeners. Every handler that changes it holds the operation
    lock; a listener's own goroutine takes that lock last, after its socket is closed, to
    remove itself. `Step` is one action of one goroutine, and the lock's holder says
    how far the operation has come. */
module Shares {
  import opened Prelude

  type Port = int
  type Ln = int   // identity of a listener

  datatype Share = Share(local: Port, listen: Port)

  datatype Phase =
    | Serving   // in the accept loop
    | Ending    // accept failed
    | Closing   // socket closed, waiting for the lock
    | Cleaned   // clean-up has run

  datatype Listener = Listener(port: Port, open: bool, phase: Phase)

  /** Who holds the operation lock, and what it has done so far. */
  datatype Holder =
    | Free
    | Checked(c: seq<Share>, v: Share)             // a new share, its firewall rule made
    | Listening(c: seq<Share>, v: Share, ln: Ln)
    | Saved(c: seq<Share>, v: Share, ln: Ln)
    | Cached(c: seq<Share>, v: Share, ln: Ln)
    | Restoring(c: seq<Share>, i: nat, got: Option<Ln>, failed: bool)
    | Cleaning(ln: Ln)

  datatype State = State(
    op: Holder,
    cfg: seq<Share>,            // the configured shares in memory
    disk: seq<Share>,           // and on disk
    shares: map<Port, Ln>,      // the cache
    ls: map<Ln, Listener>)      // every listener ever made

  datatype Event =
    | BeginShare(v: Share, passes: bool)   // passes: the port is up, the backup and the firewall rule succeed
    | ShareListens(got: Option<Ln>)
    | ShareSaves(ok: bool)
    | ShareCaches
    | SharePublishes
    | BeginRestore
    | RestoreNext(got: Option<Ln>)         // got: what listening gives, if the port has to be opened
    | RestoreCaches
    | AcceptFails(ln: Ln)
    | ClosesSocket(ln: Ln)
    | LocksToClean(ln: Ln)
    | Evicts(ln: Ln)
    | ShutDown

  predicate Configured(c: seq<Share>, port: Port) { exists i :: 0 <= i < |c| && c[i].listen == port }

  predicate ValidShare(v: Share) {
    1 <= v.local <= 65535 && 1024 <= v.listen <= 65535 && v.local != 17891 && v.local != 18765
  }

  function Opened(s: State, ln: Ln, port: Port): map<Ln, Listener> { s.ls[ln := Listener(port, true, Serving)] }

  function ShareStep(s: State, e: Event): State {
    match (s.op, e)
    case (Free, BeginShare(v, passes)) =>
      if ValidShare(v) && passes && !Configured(s.cfg, v.listen) then s.(op := Checked(s.cfg, v)) else s
    case (Checked(c, v), ShareListens(got)) =>
      if got.None? then s.(op := Free)
      else if got.value in s.ls then s
      else s.(op := Listening(c, v, got.value), ls := Opened(s, got.value, v.listen))
    case (Listening(c, v, ln), ShareSaves(ok)) =>
      if ok then s.(op := Saved(c, v, ln), disk := c + [v])
      else if ln in s.ls then s.(op := Free, ls := s.ls[ln := s.ls[ln].(open := false)])
      else s
    case (Saved(c, v, ln), ShareCaches) => s.(op := Cached(c, v, ln), shares := s.shares[v.listen := ln])
    case (Cached(c, v, ln), SharePublishes) => s.(op := Free, cfg := c + [v])
    case _ => s
  }

  function RestoreStep(s: State, e: Event): State {
    match (s.op, e)
    case (Free, BeginRestore) => s.(op := Restoring(s.cfg, 0, None, false))
    case (Restoring(c, i, None, failed), RestoreNext(got)) =>
      if i >= |c| then s.(op := Free)
      else if c[i].listen in s.shares then s.(op := Restoring(c, i + 1, None, failed))
      else if got.None? then s.(op := Restoring(c, i + 1, None, true))
      else if got.value in s.ls then s
      else s.(op := Restoring(c, i, got, failed), ls := Opened(s, got.value, c[i].listen))
    case (Restoring(c, i, Some(ln), failed), RestoreCaches) =>
      if i < |c| then s.(op := Restoring(c, i + 1, None, failed), shares := s.shares[c[i].listen := ln]) else s
    case _ => s
  }

  function Enter(s: State, ln: Ln, p: Phase, open: bool): map<Ln, Listener>
    requires ln in s.ls
  {
    s.ls[ln := s.ls[ln].(phase := p, open := open)]
  }

  /** The actions of a listener's own goroutine. */
  function ListenerStep(s: State, ln: Ln, e: Event): State
    requires ln in s.ls
  {
    var l := s.ls[ln];
    match e
    case AcceptFails(_) => if l.phase.Serving? then s.(ls := Enter(s, ln, Ending, l.open)) else s
    case ClosesSocket(_) => if l.phase.Ending? then s.(ls := Enter(s, ln, Closing, false)) else s
    case LocksToClean(_) => if l.phase.Closing? && s.op.Free? then s.(op := Cleaning(ln)) else s
    case Evicts(_) =>
      if s.op == Cleaning(ln) then
        s.(op := Free, ls := Enter(s, ln, Cleaned, l.open),
           shares := if l.port in s.shares && s.shares[l.port] == ln then s.shares - {l.port} else s.shares)
      else s
    case _ => s
  }

  function ShutDownStep(s: State): State {
    if s.op.Free? then
      s.(ls := map ln | ln in s.ls :: if ln in s.shares.Values then s.ls[ln].(open := false) else s.ls[ln])
    else s
  }

  predicate OfShare(e: Event) {
    e.BeginShare? || e.ShareListens? || e.ShareSaves? || e.ShareCaches? || e.SharePublishes?
  }
  predicate OfRestore(e: Event) { e.BeginRestore? || e.RestoreNext? || e.RestoreCaches? }

  function Step(s: State, e: Event): State {
    if OfShare(e) then ShareStep(s, e)
    else if OfRestore(e) then RestoreStep(s, e)
    else if e.ShutDown? then ShutDownStep(s)
    else if e.ln in s.ls then ListenerStep(s, e.ln, e) else s
  }

  function ExecFrom(s: State, events: seq<Event>): State
    decreases |events|
  {
    if events == [] then s else ExecFrom(Step(s, events[0]), events[1..])
  }

  /** The agent as it starts, with the shares it finds on disk. */
  function Start(c: seq<Share>): State { State(Free, c, c, map[], map[]) }

  // ---- what every interleaving keeps ----

  ghost predicate DistinctPorts(c: seq<Share>) {
    forall i, j :: 0 <= i < j < |c| ==> c[i].listen != c[j].listen
  }

  /** The holder of the lock has this listener, which is not in the cache yet. */
  ghost predicate InHand(s: State, ln: Ln) {
    || ((s.op.Listening? || s.op.Saved?) && s.op.ln == ln)
    || (s.op.Restoring? && s.op.got == Some(ln))
  }

  ghost predicate InCache(s: State, ln: Ln) {
    ln in s.ls && s.ls[ln].port in s.shares && s.shares[s.ls[ln].port] == ln
  }

  /** A cached listener serves its port and has not been cleaned up; its port is configured,
      or about to be. */
  ghost predicate PortOk(s: State, port: Port) {
    port in s.shares ==>
      && s.shares[port] in s.ls && s.ls[s.shares[port]].port == port && !s.ls[s.shares[port]].phase.Cleaned?
      && (Configured(s.cfg, port) || (s.op.Cached? && s.op.v.listen == port))
  }

  /** An open listener is in the cache or in hand, and a listener in hand is not cleaned up. */
  ghost predicate ListenerOk(s: State, ln: Ln) {
    && (ln in s.ls && s.ls[ln].open ==> InCache(s, ln) || InHand(s, ln))
    && (InHand(s, ln) ==> ln in s.ls && !s.ls[ln].phase.Cleaned? && !InCache(s, ln))
    && (ln in s.ls && (s.ls[ln].phase.Closing? || s.ls[ln].phase.Cleaned?) ==> !s.ls[ln].open)
  }

  ghost predicate HolderOk(s: State) {
    match s.op
    case Free => s.disk == s.cfg
    case Checked(c, v) => s.disk == s.cfg == c && !Configured(c, v.listen)
    case Listening(c, v, ln) =>
      s.disk == s.cfg == c && !Configured(c, v.listen) && ln in s.ls && s.ls[ln].port == v.listen
    case Saved(c, v, ln) =>
      s.cfg == c && s.disk == c + [v] && !Configured(c, v.listen) && ln in s.ls && s.ls[ln].port == v.listen
    case Cached(c, v, _) => s.cfg == c && s.disk == c + [v] && !Configured(c, v.listen)
    case Restoring(c, i, got, failed) =>
      && s.disk == s.cfg == c && i <= |c|
      && (got.Some? ==> i < |c| && c[i].listen !in s.shares && got.value in s.ls && s.ls[got.value].port == c[i].listen)
      && (!failed ==> forall j :: 0 <= j < i ==> c[j].listen in s.shares)
    case Cleaning(ln) => s.disk == s.cfg && ln in s.ls && s.ls[ln].phase.Closing?
  }

  ghost predicate Inv(s: State) {
    && DistinctPorts(s.cfg)
    && HolderOk(s)
    && (forall port: Port :: PortOk(s, port))
    && (forall ln: Ln :: ListenerOk(s, ln))
  }

  lemma SharePort(s: State, e: Event, port: Port)
    requires OfShare(e) && HolderOk(s) && PortOk(s, port)
    requires (s.op.Listening? || s.op.Saved?) ==> ListenerOk(s, s.op.ln)
    ensures PortOk(Step(s, e), port)
  {
    if s.op.Cached? && e.SharePublishes? {
      var c := s.op.c + [s.op.v];
      if i :| 0 <= i < |s.cfg| && s.cfg[i].listen == port { assert c[i].listen == port; }
      assert c[|s.op.c|] == s.op.v;
    }
  }

  lemma ShareKeeps(s: State, e: Event)
    requires Inv(s) && OfShare(e)
    ensures Inv(Step(s, e))
  {
    var t := Step(s, e);
    forall port: Port ensures PortOk(t, port) {
      assert PortOk(s, port);
      if s.op.Listening? || s.op.Saved? { assert ListenerOk(s, s.op.ln); }
      SharePort(s, e, port);
    }
    forall ln: Ln ensures ListenerOk(t, ln) {
      assert ListenerOk(s, ln);
      if s.op.Checked? || s.op.Listening? || s.op.Saved? { assert PortOk(s, s.op.v.listen); }
      if ln in s.ls { assert PortOk(s, s.ls[ln].port); }
    }
  }

  lemma RestoreKeeps(s: State, e: Event)
    requires Inv(s) && OfRestore(e)
    ensures Inv(Step(s, e))
  {
    var t := RestoreStep(s, e);
    forall port: Port ensures PortOk(t, port) { RestorePort(s, e, port); }
    forall ln: Ln ensures ListenerOk(t, ln) { RestoreListener(s, e, ln); }
  }

  lemma RestorePort(s: State, e: Event, port: Port)
    requires Inv(s) && OfRestore(e)
    ensures PortOk(RestoreStep(s, e), port)
  {
    assert PortOk(s, port);
    if s.op.Restoring? && s.op.got.Some? { assert ListenerOk(s, s.op.got.value); }
  }

  lemma RestoreListener(s: State, e: Event, ln: Ln)
    requires Inv(s) && OfRestore(e)
    ensures ListenerOk(RestoreStep(s, e), ln)
  {
    assert ListenerOk(s, ln);
    if ln in s.ls { assert PortOk(s, s.ls[ln].port); }
    if s.op.Restoring? && s.op.i < |s.op.c| { assert PortOk(s, s.op.c[s.op.i].listen); }
  }

  /** The loop starts and ends without any effect but on the position in it. */
  lemma RestoreEnds(s: State)
    requires Inv(s)
    ensures s.op.Free? ==> Inv(s.(op := Restoring(s.cfg, 0, None, false)))
    ensures s.op.Restoring? && s.op.got.None? && s.op.i == |s.op.c| ==> Inv(s.(op := Free))
  {
    if s.op.Free? { StepKeeps(s, BeginRestore); }
    if s.op.Restoring? { StepKeeps(s, RestoreNext(None)); }
  }

  lemma ListenerKeeps(s: State, ln: Ln, e: Event)
    requires Inv(s) && ln in s.ls
    ensures Inv(ListenerStep(s, ln, e))
  {
    var t := ListenerStep(s, ln, e);
    forall port: Port ensures PortOk(t, port) { assert PortOk(s, port); }
    forall x: Ln ensures ListenerOk(t, x) {
      assert ListenerOk(s, x) && ListenerOk(s, ln);
    }
  }

  lemma ShutDownKeeps(s: State)
    requires Inv(s)
    ensures Inv(ShutDownStep(s))
  {
    var t := ShutDownStep(s);
    forall port: Port ensures PortOk(t, port) { assert PortOk(s, port); }
    forall ln: Ln ensures ListenerOk(t, ln) { assert ListenerOk(s, ln); }
  }

  lemma StepKeeps(s: State, e: Event)
    requires Inv(s)
    ensures Inv(Step(s, e))
  {
    if OfShare(e) { ShareKeeps(s, e); }
    else if OfRestore(e) { RestoreKeeps(s, e); }
    else if e.ShutDown? { ShutDownKeeps(s); }
    else if e.ln in s.ls { ListenerKeeps(s, e.ln, e); }
  }

  lemma {:induction false} RunKeeps(s: State, events: seq<Event>)
    requires Inv(s)
    ensures Inv(ExecFrom(s, events))
    decreases |events|
  {
    if events != [] {
      StepKeeps(s, events[0]);
      RunKeeps(Step(s, events[0]), events[1..]);
    }
  }

  // ---- every run ----

  /** In every interleaving: configured ports are distinct; a cached listener belongs to its
      port and has not run its clean-up; no open listener is lost; and whenever the lock is
      free, memory and disk agree and every cached port is configured. */
  lemma EveryRunIsSafe(c: seq<Share>, events: seq<Event>)
    requires DistinctPorts(c)
    ensures var s := ExecFrom(Start(c), events);
      && DistinctPorts(s.cfg)
      && (forall port :: port in s.shares ==>
           s.shares[port] in s.ls && s.ls[s.shares[port]].port == port && !s.ls[s.shares[port]].phase.Cleaned?)
      && (forall ln :: ln in s.ls && s.ls[ln].open ==> InCache(s, ln) || InHand(s, ln))
      && (s.op.Free? ==>
           && s.disk == s.cfg
           && (forall port :: port in s.shares ==> Configured(s.cfg, port))
           && (forall ln :: ln in s.ls && s.ls[ln].open ==> InCache(s, ln)))
  {
    RunKeeps(Start(c), events);
    var s := ExecFrom(Start(c), events);
    forall port | port in s.shares ensures PortOk(s, port) { }
    forall ln | ln in s.ls ensures ListenerOk(s, ln) { }
  }

  /** The clean-up of a dead listener removes that listener and nothing else, in particular
      not the one that replaced it. */
  lemma CleanUpSparesReplacement(c: seq<Share>, events: seq<Event>, ln: Ln)
    requires DistinctPorts(c) && ln in ExecFrom(Start(c), events).ls
    ensures var s := ExecFrom(Start(c), events);
      var t := Step(s, Evicts(ln));
      && (forall port :: port in s.shares && s.shares[port] != ln ==>
           port in t.shares && t.shares[port] == s.shares[port])
      && (s.op == Cleaning(ln) ==> !InCache(t, ln) && forall port :: port in t.shares ==> t.shares[port] != ln)
  {
    RunKeeps(Start(c), events);
    var s := ExecFrom(Start(c), events);
    forall port | port in s.shares && s.shares[port] == ln ensures s.ls[ln].port == port { assert PortOk(s, port); }
  }

  /** A listener that the holder of the lock has just opened cannot run its clean-up
      before it is cached, even if its socket dies meanwhile. */
  lemma InHandIsNotCleaned(s: State, ln: Ln, e: Event)
    requires Inv(s) && InHand(s, ln)
    ensures ln in Step(s, e).ls && !Step(s, e).ls[ln].phase.Cleaned?
  {
    StepKeeps(s, e);
    assert ListenerOk(s, ln);
  }

  /** A restore in which every listen succeeded ends with every configured port cached,
      whatever the listeners did meanwhile. */
  lemma RestoreFillsTheCache(c: seq<Share>, events: seq<Event>, got: Option<Ln>)
    requires DistinctPorts(c)
    requires var op := ExecFrom(Start(c), events).op; op.Restoring? && op.i == |op.c| && op.got.None? && !op.failed
    ensures var t := Step(ExecFrom(Start(c), events), RestoreNext(got));
      t.op.Free? && forall i :: 0 <= i < |t.cfg| ==> t.cfg[i].listen in t.shares
  {
    RunKeeps(Start(c), events);
  }

  // ---- the life of a listener ----

  lemma FirstEvent(s: State, e: Event, rest: seq<Event>)
    ensures ExecFrom(s, [e] + rest) == ExecFrom(Step(s, e), rest)
  {
    assert ([e] + rest)[1..] == rest;
  }

  lemma FourEvents(s: State, e: Event, f: Event, g: Event, h: Event)
    ensures ExecFrom(s, [e, f, g, h]) == Step(Step(Step(Step(s, e), f), g), h)
  {
    var t := Step(Step(s, e), f);
    FirstEvent(Step(t, g), h, []);
    FirstEvent(t, g, [h]);
    FirstEvent(Step(s, e), f, [g, h]);
    FirstEvent(s, e, [f, g, h]);
    assert [h] + [] == [h] && [g] + [h] == [g, h] && [f] + [g, h] == [f, g, h] && [e] + [f, g, h] == [e, f, g, h];
  }

  /** A new share for ports that may be shared, when nothing fails: its listener is open and cached, and it
      is configured last, in memory and on disk. */
  lemma ShareIsMade(c: seq<Share>, before: seq<Event>, v: Share, ln: Ln)
    requires DistinctPorts(c)
    requires 1 <= v.local <= 65535 && 1024 <= v.listen <= 65535 && v.local != 17891 && v.local != 18765
    requires var s := ExecFrom(Start(c), before);
      s.op.Free? && ln !in s.ls && forall i :: 0 <= i < |s.cfg| ==> s.cfg[i].listen != v.listen
    ensures var s := ExecFrom(Start(c), before);
      Step(ExecFrom(s, [BeginShare(v, true), ShareListens(Some(ln)), ShareSaves(true), ShareCaches]), SharePublishes)
      == s.(cfg := s.cfg + [v], disk := s.cfg + [v], shares := s.shares[v.listen := ln],
            ls := s.ls[ln := Listener(v.listen, true, Serving)])
  {
    var s := ExecFrom(Start(c), before);
    FourEvents(s, BeginShare(v, true), ShareListens(Some(ln)), ShareSaves(true), ShareCaches);
    var ls := s.ls[ln := Listener(v.listen, true, Serving)];
    var t := s.(op := Listening(s.cfg, v, ln), ls := ls);
    assert Step(Step(s, BeginShare(v, true)), ShareListens(Some(ln))) == t;
    assert Step(t, ShareSaves(true)) == s.(op := Saved(s.cfg, v, ln), ls := ls, disk := s.cfg + [v]);
  }

  /** A share for other ports, for a port that is configured, or whose preparation fails, is not begun. */
  lemma ShareIsRefused(s: State, v: Share, passes: bool)
    requires
      || !(1 <= v.local <= 65535 && 1024 <= v.listen <= 65535) || v.local == 17891 || v.local == 18765
      || !passes || !s.op.Free? || exists i :: 0 <= i < |s.cfg| && s.cfg[i].listen == v.listen
    ensures Step(s, BeginShare(v, passes)) == s
  {
  }

  /** If the file cannot be written, the new listener is closed and nothing else has changed. */
  lemma FailedSaveClosesListener(c: seq<Share>, before: seq<Event>, v: Share, ln: Ln)
    requires var op := ExecFrom(Start(c), before).op; op.Listening? && op.v == v && op.ln == ln
    requires DistinctPorts(c)
    ensures var s := ExecFrom(Start(c), before);
      ln in s.ls && Step(s, ShareSaves(false)) == s.(op := Free, ls := s.ls[ln := s.ls[ln].(open := false)])
  {
    RunKeeps(Start(c), before);
  }

  /** A listener whose accept loop ends closes its socket and, once the lock is free, takes itself out of
      the cache. */
  lemma DeadListenerGoes(c: seq<Share>, before: seq<Event>, ln: Ln)
    requires DistinctPorts(c)
    requires var s := ExecFrom(Start(c), before);
      s.op.Free? && ln in s.ls && s.ls[ln].phase.Serving?
    ensures var s := ExecFrom(Start(c), before);
      var l := s.ls[ln];
      ExecFrom(s, [AcceptFails(ln), ClosesSocket(ln), LocksToClean(ln), Evicts(ln)])
      == s.(ls := s.ls[ln := Listener(l.port, false, Cleaned)],
            shares := if l.port in s.shares && s.shares[l.port] == ln then s.shares - {l.port} else s.shares)
  {
    var s := ExecFrom(Start(c), before);
    var l := s.ls[ln];
    FourEvents(s, AcceptFails(ln), ClosesSocket(ln), LocksToClean(ln), Evicts(ln));
    var t := s.(ls := s.ls[ln := Listener(l.port, l.open, Ending)]);
    assert Step(s, AcceptFails(ln)) == t;
    var u := s.(ls := s.ls[ln := Listener(l.port, false, Closing)]);
    assert t.ls[ln := Listener(l.port, false, Closing)] == u.ls;
    assert Step(t, ClosesSocket(ln)) == u;
    assert u.ls[ln := Listener(l.port, false, Cleaned)] == s.ls[ln := Listener(l.port, false, Cleaned)];
  }

  /** A shutdown waits for the lock; then every cached listener is closed, so no listener is open any
      more. */
  lemma ShutDownClosesAll(c: seq<Share>, before: seq<Event>)
    requires DistinctPorts(c)
    ensures var s := ExecFrom(Start(c), before);
      var t := Step(s, ShutDown);
      if s.op.Free? then
        t == s.(ls := t.ls) && t.ls.Keys == s.ls.Keys && forall ln :: ln in t.ls ==> !t.ls[ln].open
      else t == s
  {
    RunKeeps(Start(c), before);
    var s := ExecFrom(Start(c), before);
    if s.op.Free? {
      forall ln | ln in s.ls && s.ls[ln].open ensures ln in s.shares.Values { assert ListenerOk(s, ln); }
    }
  }

  // ---- the handlers ----

  class ShareCache {
    var cfg: seq<Share>
    var disk: seq<Share>
    var shares: map<Port, Ln>
    ghost var m: State

    ghost predicate Valid() reads this {
      m.cfg == cfg && m.disk == disk && m.shares == shares && m.op.Free? && Inv(m)
    }

    constructor (c: seq<Share>)
      requires DistinctPorts(c)
      ensures Valid() && m == Start(c)
    {
      cfg, disk, shares := c, c, map[];
      m := Start(c);
    }

    method Find(port: Port) returns (found: Option<Share>)
      ensures found.None? <==> !Configured(cfg, port)
      ensures found.Some? ==> found.value in cfg && found.value.listen == port
    {
      var i := 0;
      while i < |cfg|
        invariant 0 <= i <= |cfg| && forall j :: 0 <= j < i ==> cfg[j].listen != port
      {
        if cfg[i].listen == port {
          return Some(cfg[i]);
        }
        i := i + 1;
      }
      found := None;
    }

    /** Share a port. `up`: the agent has joined and the local port answers; `prepared`: the
        backup and the firewall rule succeed. A share that exists already is confirmed. */
    method Add(v: Share, up: bool, prepared: bool, got: Option<Ln>, saves: bool) returns (ok: bool)
      requires Valid() && (got.Some? ==> got.value !in m.ls)
      modifies this
      ensures Valid()
      ensures ok <==> (
        && 1 <= v.local <= 65535 && 1024 <= v.listen <= 65535 && v.local != 17891 && v.local != 18765 && up
        && (v in old(cfg) || (!Configured(old(cfg), v.listen) && prepared && got.Some? && saves)))
      ensures if ok && v !in old(cfg)
        then cfg == old(cfg) + [v] && disk == cfg && shares == old(shares)[v.listen := got.value]
        else cfg == old(cfg) && disk == old(disk) && shares == old(shares)
    {
      if !ValidShare(v) || !up {
        return false;
      }
      var found := Find(v.listen);
      if found.Some? {
        return found.value.local == v.local;
      }
      if !prepared {
        return false;
      }
      StepKeeps(m, BeginShare(v, true));
      m := Step(m, BeginShare(v, true));
      StepKeeps(m, ShareListens(got));
      m := Step(m, ShareListens(got));
      if got.None? {
        return false;
      }
      ok := Keep(v, got.value, saves);
    }

    /** The second half: save the configuration and cache the new listener. */
    method Keep(v: Share, ln: Ln, saves: bool) returns (ok: bool)
      requires m.cfg == cfg && m.disk == disk && m.shares == shares && Inv(m)
      requires m.op == Listening(cfg, v, ln)
      modifies this
      ensures Valid() && ok == saves
      ensures if ok then cfg == old(cfg) + [v] && disk == cfg && shares == old(shares)[v.listen := ln]
        else cfg == old(cfg) && disk == old(disk) && shares == old(shares)
    {
      StepKeeps(m, ShareSaves(saves));
      m := Step(m, ShareSaves(saves));
      if !saves {
        return false;
      }
      disk := cfg + [v];
      StepKeeps(m, ShareCaches);
      m := Step(m, ShareCaches);
      shares := shares[v.listen := ln];
      StepKeeps(m, SharePublishes);
      m := Step(m, SharePublishes);
      cfg := cfg + [v];
      ok := true;
    }

    /** The lock is held by a restore that is done with the first i ports. */
    ghost predicate Midway(i: nat) reads this {
      && m.cfg == cfg && m.disk == disk && m.shares == shares && Inv(m)
      && m.op.Restoring? && m.op.c == cfg && m.op.i == i && m.op.got.None?
    }

    method RestoreOne(i: nat, got: Option<Ln>)
      requires Midway(i) && i < |cfg| && (got.Some? ==> got.value !in m.ls)
      modifies this
      ensures Midway(i + 1) && cfg == old(cfg) && disk == old(disk)
      ensures m.ls.Keys <= old(m.ls.Keys) + (if got.Some? then {got.value} else {})
      ensures shares ==
        if cfg[i].listen !in old(shares) && got.Some? then old(shares)[cfg[i].listen := got.value] else old(shares)
    {
      StepKeeps(m, RestoreNext(got));
      m := Step(m, RestoreNext(got));
      if cfg[i].listen !in shares && got.Some? {
        StepKeeps(m, RestoreCaches);
        m := Step(m, RestoreCaches);
        shares := shares[cfg[i].listen := got.value];
      }
    }

    /** Listen again on every configured port without a cached listener. */
    method Restore(got: seq<Option<Ln>>)
      requires Valid() && |got| == |cfg|
      requires forall i :: 0 <= i < |got| && got[i].Some? ==> got[i].value !in m.ls
      requires forall i, j :: 0 <= i < j < |got| && got[i].Some? ==> got[i] != got[j]
      modifies this
      ensures Valid() && cfg == old(cfg) && disk == old(disk)
      ensures forall port :: port in old(shares) ==> port in shares && shares[port] == old(shares)[port]
      ensures forall i :: 0 <= i < |cfg| && cfg[i].listen !in old(shares) ==>
        if got[i].Some? then cfg[i].listen in shares && shares[cfg[i].listen] == got[i].value
        else cfg[i].listen !in shares
    {
      RestoreEnds(m);
      m := m.(op := Restoring(cfg, 0, None, false));
      var i := 0;
      while i < |cfg|
        invariant 0 <= i <= |cfg| && cfg == old(cfg) && disk == old(disk) && Midway(i)
        invariant forall j :: i <= j < |got| && got[j].Some? ==> got[j].value !in m.ls
        invariant forall port :: port in old(shares) ==> port in shares && shares[port] == old(shares)[port]
        invariant forall j :: 0 <= j < i && cfg[j].listen !in old(shares) ==>
          if got[j].Some? then cfg[j].listen in shares && shares[cfg[j].listen] == got[j].value
          else cfg[j].listen !in shares
        invariant forall j :: i <= j < |cfg| && cfg[j].listen !in old(shares) ==> cfg[j].listen !in shares
      {
        RestoreOne(i, got[i]);
        i := i + 1;
      }
      RestoreEnds(m);
      m := m.(op := Free);
    }

    /** The deferred clean-up of a listener whose socket is closed. */
    method CleanUp(ln: Ln, port: Port)
      requires Valid() && ln in m.ls && m.ls[ln].port == port && m.ls[ln].phase.Closing?
      modifies this
      ensures Valid() && m == Step(Step(old(m), LocksToClean(ln)), Evicts(ln))
      ensures forall p :: p in shares <==> p in old(shares) && old(shares)[p] != ln
      ensures forall p :: p in shares ==> shares[p] == old(shares)[p]
    {
      forall p | p in shares && shares[p] == ln ensures p == port { assert PortOk(m, p); }
      StepKeeps(m, LocksToClean(ln));
      m := Step(m, LocksToClean(ln));
      StepKeeps(m, Evicts(ln));
      m := Step(m, Evicts(ln));
      if port in shares && shares[port] == ln {
        shares := shares - {port};
      }
    }
  }

}
