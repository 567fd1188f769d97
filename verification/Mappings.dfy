/** The port mappings above the forwarders: the list in the server's state, the running
    forwarders by id, and the ports that are really bound. Put, delete and restore hold one
    lock throughout; its holder says how far the operation has come. */
module Mappings {
  import opened Model

  /** A listening socket: UDP ports and TCP ports (which HTTP mappings use too) are apart. */
  datatype Bind = Bind(udp: bool, port: int)

  function BindOf(m: Mapping): Bind { Bind(m.protocol == "udp", m.listen) }

  /** Who holds the lock, and what it has done so far. */
  datatype Holder =
    | Free
    | Putting(m: Mapping)            // validated
    | Started(m: Mapping)            // its forwarder runs, if it is enabled
    | Kept(m: Mapping)               // in the list and saved, not yet among the forwards
    | Dropping(m: Mapping)           // the save failed, the list is as before
    | Deleting(id: Id)               // out of the list and saved, not yet stopped
    | Restoring(c: seq<Mapping>, i: nat)

  datatype State = State(
    serverIP: string,
    devices: map<Id, string>,       // address of each device
    mappings: seq<Mapping>,
    forwards: map<Id, Bind>,        // the stop functions, by the socket they close
    bound: set<Bind>,               // the sockets that are open
    op: Holder,
    restored: bool)

  datatype Event =
    | Joins(device: Id, ip: string)
    | Put(m: Mapping, id: Id)        // id: the fresh token
    | PutStarts(fault: string)       // fault: the error of starting the forwarder, "" for none
    | PutSaves(ok: bool)
    | PutFinishes
    | Delete(id: Id, saves: bool)
    | DeleteFinishes
    | BeginRestore
    | RestoreNext(fault: string)

  // ---- validation ----

  predicate PortOk(p: int) { 0 < p <= 65535 }

  predicate Unsafe(c: char) { c == '/' || c == '\\' || c == '\r' || c == '\n' || c == ' ' || c == ':' }

  lemma UnsafeMeans(c: char)
    ensures Unsafe(c) <==> c in "/\\\r\n :"
  {
    var s := "/\\\r\n :";
    assert s[0] == '/' && s[1] == '\\' && s[2] == '\r' && s[3] == '\n' && s[4] == ' ' && s[5] == ':';
  }

  predicate WellFormed(m: Mapping) {
    && 1024 <= m.listen && PortOk(m.listen) && PortOk(m.target) && 1 <= |m.name| <= 80
    && (m.protocol == "tcp" || m.protocol == "udp" || m.protocol == "http")
    && |m.domain| <= 253 && forall i :: 0 <= i < |m.domain| ==> !Unsafe(m.domain[i])
  }

  /** The target exists and is not the mapping's own listener. */
  predicate Targets(devices: map<Id, string>, serverIP: string, m: Mapping) {
    m.device in devices && !(devices[m.device] == serverIP && m.listen == m.target)
  }

  predicate Taken(ms: seq<Mapping>, b: Bind) { exists i :: 0 <= i < |ms| && BindOf(ms[i]) == b }

  predicate Accepts(s: State, m: Mapping) {
    WellFormed(m) && Targets(s.devices, s.serverIP, m) && !Taken(s.mappings, BindOf(m))
  }

  // ---- steps ----

  predicate HasId(ms: seq<Mapping>, id: Id) { exists i :: 0 <= i < |ms| && ms[i].id == id }

  /** The list without the first mapping of this id. */
  function Without(ms: seq<Mapping>, id: Id): seq<Mapping> {
    if ms == [] then [] else if ms[0].id == id then ms[1..] else [ms[0]] + Without(ms[1..], id)
  }

  function Marked(ms: seq<Mapping>, id: Id, fault: string): seq<Mapping> {
    seq(|ms|, i requires 0 <= i < |ms| => if ms[i].id == id then ms[i].(error := fault) else ms[i])
  }

  /** Starting a forwarder fails if its device is missing or its port is bound, and for
      whatever other reason there is. */
  predicate Starts(s: State, m: Mapping, fault: string) {
    fault == "" && m.device in s.devices && BindOf(m) !in s.bound
  }

  function Fault(fault: string): string { if fault == "" then "listen failed" else fault }

  function PutStep(s: State, e: Event): State {
    match (s.op, e)
    case (Free, Put(m, id)) =>
      if m.id == "" && Accepts(s, m) && id != "" && !HasId(s.mappings, id) && id !in s.forwards
      then s.(op := Putting(m.(id := id, error := ""))) else s
    case (Putting(m), PutStarts(fault)) =>
      if !m.enabled then s.(op := Started(m))
      else if Starts(s, m, fault) then s.(op := Started(m), bound := s.bound + {BindOf(m)})
      else s.(op := Free)
    case (Started(m), PutSaves(ok)) =>
      if ok then s.(op := Kept(m), mappings := s.mappings + [m]) else s.(op := Dropping(m))
    case (Kept(m), PutFinishes) =>
      s.(op := Free, forwards := if m.enabled then s.forwards[m.id := BindOf(m)] else s.forwards)
    case (Dropping(m), PutFinishes) =>
      s.(op := Free, bound := if m.enabled then s.bound - {BindOf(m)} else s.bound)
    case _ => s
  }

  function DeleteStep(s: State, e: Event): State {
    match (s.op, e)
    case (Free, Delete(id, saves)) =>
      if HasId(s.mappings, id) && saves then s.(op := Deleting(id), mappings := Without(s.mappings, id)) else s
    case (Deleting(id), DeleteFinishes) =>
      if id in s.forwards then s.(op := Free, bound := s.bound - {s.forwards[id]}, forwards := s.forwards - {id})
      else s.(op := Free)
    case _ => s
  }

  function RestoreStep(s: State, e: Event): State {
    match (s.op, e)
    case (Free, BeginRestore) => s.(op := Restoring(s.mappings, 0))
    case (Restoring(c, i), RestoreNext(fault)) =>
      if i >= |c| then s.(op := Free, restored := true)
      else if !c[i].enabled then s.(op := Restoring(c, i + 1))
      else if Starts(s, c[i], fault) then
        s.(op := Restoring(c, i + 1), bound := s.bound + {BindOf(c[i])},
           forwards := s.forwards[c[i].id := BindOf(c[i])])
      else s.(op := Restoring(c, i + 1), mappings := Marked(s.mappings, c[i].id, Fault(fault)))
    case _ => s
  }

  predicate OfPut(e: Event) { e.Put? || e.PutStarts? || e.PutSaves? || e.PutFinishes? }
  predicate OfDelete(e: Event) { e.Delete? || e.DeleteFinishes? }

  function Step(s: State, e: Event): State {
    if e.Joins? then
      if e.device in s.devices then s else s.(devices := s.devices[e.device := e.ip])
    else if OfPut(e) then PutStep(s, e)
    else if OfDelete(e) then DeleteStep(s, e)
    else RestoreStep(s, e)
  }

  function ExecFrom(s: State, events: seq<Event>): State
    decreases |events|
  {
    if events == [] then s else ExecFrom(Step(s, events[0]), events[1..])
  }

  /** The server as it starts, with the mappings it loads. */
  function Start(serverIP: string, devices: map<Id, string>, loaded: seq<Mapping>): State {
    State(serverIP, devices, loaded, map[], {}, Free, false)
  }

  // ---- what every interleaving keeps ----

  /** No two mappings have the same id or the same listen port within UDP or within TCP and HTTP. */
  ghost predicate Separate(ms: seq<Mapping>) {
    forall i, j :: 0 <= i < j < |ms| ==> ms[i].id != ms[j].id && BindOf(ms[i]) != BindOf(ms[j])
  }

  ghost predicate Sane(devices: map<Id, string>, serverIP: string, ms: seq<Mapping>) {
    forall i :: 0 <= i < |ms| ==> ms[i].id != "" && WellFormed(ms[i]) && Targets(devices, serverIP, ms[i])
  }

  /** The socket of a put that is running its forwarder without having registered it. */
  ghost predicate InHand(s: State, b: Bind) {
    (s.op.Started? || s.op.Kept? || s.op.Dropping?) && s.op.m.enabled && BindOf(s.op.m) == b
  }

  ghost predicate BindOk(s: State, b: Bind) { b in s.bound <==> b in s.forwards.Values || InHand(s, b) }

  ghost predicate Wanted(ms: seq<Mapping>, id: Id, b: Bind) {
    exists i :: 0 <= i < |ms| && ms[i].id == id && ms[i].enabled && BindOf(ms[i]) == b
  }

  /** A running forwarder belongs to an enabled mapping of the list, or to the one being deleted. */
  ghost predicate ForwardOk(s: State, id: Id) {
    id in s.forwards ==> Wanted(s.mappings, id, s.forwards[id]) || s.op == Deleting(id)
  }

  /** An enabled mapping runs, has an error, or is just being registered. */
  ghost predicate Covered(s: State, m: Mapping) {
    m.enabled ==> m.id in s.forwards || m.error != "" || (s.op.Kept? && s.op.m.id == m.id)
  }

  ghost predicate HolderOk(s: State) {
    match s.op
    case Free => true
    case Putting(m) => Accepts(s, m) && m.id != "" && m.error == "" && !HasId(s.mappings, m.id) && m.id !in s.forwards
    case Started(m) => Accepts(s, m) && m.id != "" && m.error == "" && !HasId(s.mappings, m.id) && m.id !in s.forwards
    case Kept(m) => m in s.mappings && m.id !in s.forwards
    case Dropping(m) => m.id !in s.forwards
    case Deleting(id) => !HasId(s.mappings, id)
    case Restoring(c, i) =>
      && i <= |c| == |s.mappings|
      && (forall j :: 0 <= j < |c| ==> s.mappings[j].(error := "") == c[j].(error := ""))
      && (forall j :: 0 <= j < i ==> Covered(s, s.mappings[j]))
  }

  /** Different forwarders have different sockets. */
  ghost predicate Injective(f: map<Id, Bind>) {
    forall x, y :: x in f && y in f && x != y ==> f[x] != f[y]
  }

  ghost predicate ListsOk(s: State) { Separate(s.mappings) && Sane(s.devices, s.serverIP, s.mappings) }

  ghost predicate SocketsOk(s: State) {
    forall b: Bind :: BindOk(s, b) && (InHand(s, b) ==> b !in s.forwards.Values)
  }

  ghost predicate ForwardsOk(s: State) { Injective(s.forwards) && forall id: Id :: ForwardOk(s, id) }

  ghost predicate CoverOk(s: State) {
    s.restored ==> forall i :: 0 <= i < |s.mappings| ==> Covered(s, s.mappings[i])
  }

  ghost predicate Inv(s: State) { ListsOk(s) && HolderOk(s) && SocketsOk(s) && ForwardsOk(s) && CoverOk(s) }

  /** Nothing has happened to the sockets. */
  lemma SameSockets(s: State, t: State)
    requires SocketsOk(s) && t.forwards == s.forwards && t.bound == s.bound
    requires forall b: Bind :: InHand(t, b) <==> InHand(s, b)
    ensures SocketsOk(t)
  {
    forall b: Bind ensures BindOk(t, b) && (InHand(t, b) ==> b !in t.forwards.Values) { assert BindOk(s, b); }
  }

  /** Nothing has happened to the mappings and the forwarders. */
  lemma SameForwards(s: State, t: State)
    requires ForwardsOk(s) && t.forwards == s.forwards && t.mappings == s.mappings
    requires s.op.Deleting? ==> t.op == s.op
    ensures ForwardsOk(t)
  {
    forall id: Id ensures ForwardOk(t, id) { assert ForwardOk(s, id); }
  }

  lemma SameCover(s: State, t: State)
    requires CoverOk(s) && t.mappings == s.mappings && t.forwards == s.forwards && t.restored == s.restored
    requires s.op.Kept? ==> t.op == s.op
    ensures CoverOk(t)
  {
    forall i | t.restored && 0 <= i < |t.mappings| ensures Covered(t, t.mappings[i]) {
      assert Covered(s, s.mappings[i]);
    }
  }

  // ---- put ----

  lemma AppendKeeps(s: State, m: Mapping)
    requires Separate(s.mappings) && Sane(s.devices, s.serverIP, s.mappings)
    requires Accepts(s, m) && m.id != "" && !HasId(s.mappings, m.id)
    ensures var ms := s.mappings + [m];
      && Separate(ms) && Sane(s.devices, s.serverIP, ms) && m in ms
      && (forall id, b :: Wanted(s.mappings, id, b) ==> Wanted(ms, id, b))
  {
    var ms := s.mappings + [m];
    forall i, j | 0 <= i < j < |ms| ensures ms[i].id != ms[j].id && BindOf(ms[i]) != BindOf(ms[j]) {
      assert i < |s.mappings| && ms[i] == s.mappings[i];
    }
    assert ms[|s.mappings|] == m;
    forall id, b | Wanted(s.mappings, id, b) ensures Wanted(ms, id, b) {
      var i :| 0 <= i < |s.mappings| && s.mappings[i].id == id && s.mappings[i].enabled && BindOf(s.mappings[i]) == b;
      assert ms[i] == s.mappings[i];
    }
  }

  /** The list changes by the save only. */
  lemma PutList(s: State, e: Event)
    requires OfPut(e)
    ensures var t := Step(s, e);
      && t.devices == s.devices && t.serverIP == s.serverIP && t.restored == s.restored
      && (t.mappings == s.mappings || (s.op.Started? && t.mappings == s.mappings + [s.op.m] && t.op == Kept(s.op.m)))
  {
  }

  lemma PutLists(s: State, e: Event)
    requires Separate(s.mappings) && Sane(s.devices, s.serverIP, s.mappings) && HolderOk(s) && OfPut(e)
    ensures var t := Step(s, e);
      && Separate(t.mappings) && Sane(t.devices, t.serverIP, t.mappings)
      && (forall id, b :: Wanted(s.mappings, id, b) ==> Wanted(t.mappings, id, b))
      && (t.op.Kept? ==> t.op.m in t.mappings)
  {
    PutList(s, e);
    if s.op.Started? { AppendKeeps(s, s.op.m); }
  }

  lemma PutHolder(s: State, e: Event)
    requires HolderOk(s) && OfPut(e)
    requires Step(s, e).op.Kept? ==> Step(s, e).op.m in Step(s, e).mappings
    ensures HolderOk(Step(s, e))
  {
  }

  lemma PutSockets(s: State, e: Event, b: Bind)
    requires OfPut(e) && HolderOk(s) && BindOk(s, b) && (InHand(s, b) ==> b !in s.forwards.Values)
    requires s.op.Putting? ==> BindOk(s, BindOf(s.op.m))
    ensures BindOk(PutStep(s, e), b) && (InHand(PutStep(s, e), b) ==> b !in PutStep(s, e).forwards.Values)
  {
    if s.op.Kept? && e.PutFinishes? && s.op.m.enabled {
      AddedValues(s.forwards, s.op.m.id, BindOf(s.op.m), b);
    }
  }

  lemma AddedValues(f: map<Id, Bind>, id: Id, v: Bind, b: Bind)
    requires id !in f
    ensures b in f[id := v].Values <==> b == v || b in f.Values
  {
    var g := f[id := v];
    if b in f.Values {
      var x :| x in f && f[x] == b;
      assert g[x] == b;
    }
    assert g[id] == v;
  }

  /** The forwards change by the last action of a put only. */
  lemma PutForward(s: State, e: Event)
    requires OfPut(e)
    ensures var t := Step(s, e);
      || t.forwards == s.forwards
      || (s.op.Kept? && s.op.m.enabled && t.op.Free? && t.forwards == s.forwards[s.op.m.id := BindOf(s.op.m)])
  {
  }

  lemma PutForwards(s: State, e: Event)
    requires Inv(s) && OfPut(e)
    ensures (forall id: Id :: ForwardOk(Step(s, e), id)) && Injective(Step(s, e).forwards)
  {
    var t := Step(s, e);
    PutForward(s, e);
    PutLists(s, e);
    PutList(s, e);
    forall id: Id ensures ForwardOk(t, id) {
      assert ForwardOk(s, id);
    }
    if t.forwards != s.forwards { assert InHand(s, BindOf(s.op.m)); }
  }

  lemma PutCovered(s: State, e: Event)
    requires OfPut(e) && HolderOk(s) && Separate(s.mappings)
    requires forall i :: 0 <= i < |s.mappings| ==> Covered(s, s.mappings[i])
    ensures var t := Step(s, e); forall i :: 0 <= i < |t.mappings| ==> Covered(t, t.mappings[i])
  {
    var t := Step(s, e);
    PutForward(s, e);
    PutList(s, e);
    forall i | 0 <= i < |t.mappings| ensures Covered(t, t.mappings[i]) {
      if i < |s.mappings| {
        assert Covered(s, s.mappings[i]);
        if s.op.Kept? {
          var j :| 0 <= j < |s.mappings| && s.mappings[j] == s.op.m;
        }
      }
    }
  }

  lemma PutAllSockets(s: State, e: Event)
    requires SocketsOk(s) && HolderOk(s) && OfPut(e)
    ensures SocketsOk(PutStep(s, e))
  {
    forall b: Bind
      ensures BindOk(PutStep(s, e), b) && (InHand(PutStep(s, e), b) ==> b !in PutStep(s, e).forwards.Values)
    {
      assert BindOk(s, b);
      if s.op.Putting? { assert BindOk(s, BindOf(s.op.m)); }
      PutSockets(s, e, b);
    }
  }

  lemma PutKeeps(s: State, e: Event)
    requires Inv(s) && OfPut(e)
    ensures Inv(Step(s, e))
  {
    PutLists(s, e);
    PutHolder(s, e);
    PutForwards(s, e);
    PutList(s, e);
    PutAllSockets(s, e);
    if s.restored { PutCovered(s, e); }
  }

  // ---- delete ----

  /** Removal takes out the first mapping of the id and keeps the order of the others. */
  lemma {:induction false} WithoutAt(ms: seq<Mapping>, id: Id, k: nat)
    requires k < |ms| && ms[k].id == id && forall j :: 0 <= j < k ==> ms[j].id != id
    ensures Without(ms, id) == ms[..k] + ms[k + 1..]
    decreases k
  {
    if k > 0 {
      assert ms[1..][k - 1] == ms[k] && forall j :: 0 <= j < k - 1 ==> ms[1..][j] == ms[j + 1];
      WithoutAt(ms[1..], id, k - 1);
      Cons(ms, k - 1);
    }
  }

  lemma {:induction false} First(ms: seq<Mapping>, id: Id, i: nat) returns (k: nat)
    requires i < |ms| && ms[i].id == id
    ensures k <= i && ms[k].id == id && forall j :: 0 <= j < k ==> ms[j].id != id
    decreases i
  {
    if j :| 0 <= j < i && ms[j].id == id { k := First(ms, id, j); } else { k := i; }
  }

  lemma WithoutIs(ms: seq<Mapping>, id: Id) returns (k: nat)
    requires HasId(ms, id)
    ensures k < |ms| && ms[k].id == id && Without(ms, id) == ms[..k] + ms[k + 1..]
    ensures forall j :: 0 <= j < k ==> ms[j].id != id
  {
    var i: nat :| i < |ms| && ms[i].id == id;
    k := First(ms, id, i);
    WithoutAt(ms, id, k);
  }

  /** Exactly the first mapping of the id is gone, and the others are in the same order. */
  ghost predicate FirstCut(was: seq<Mapping>, now: seq<Mapping>, id: Id) {
    exists k :: 0 <= k < |was| && was[k].id == id && (forall j :: 0 <= j < k ==> was[j].id != id)
                && now == was[..k] + was[k + 1..]
  }

  lemma Cons(ms: seq<Mapping>, j: nat)
    requires j + 1 < |ms|
    ensures [ms[0]] + (ms[1..][..j] + ms[1..][j + 1..]) == ms[..j + 1] + ms[j + 2..]
  {
    assert ms[..j + 1] == [ms[0]] + ms[1..][..j];
  }

  lemma DeleteLists(s: State, id: Id)
    requires Separate(s.mappings) && Sane(s.devices, s.serverIP, s.mappings) && HasId(s.mappings, id)
    ensures var ms := Without(s.mappings, id);
      && Separate(ms) && Sane(s.devices, s.serverIP, ms) && !HasId(ms, id)
      && (forall i :: 0 <= i < |ms| ==> ms[i] in s.mappings)
      && (forall i :: 0 <= i < |s.mappings| && s.mappings[i].id != id ==> s.mappings[i] in ms)
  {
    var k := WithoutIs(s.mappings, id);
    var ms := Without(s.mappings, id);
    forall i | 0 <= i < |ms| ensures ms[i] == s.mappings[if i < k then i else i + 1] { }
    forall i | 0 <= i < |s.mappings| && s.mappings[i].id != id ensures s.mappings[i] in ms {
      assert ms[if i < k then i else i - 1] == s.mappings[i];
    }
  }

  lemma WantedStays(a: seq<Mapping>, b: seq<Mapping>, x: Id, v: Bind)
    requires Wanted(a, x, v) && forall i :: 0 <= i < |a| && a[i].id == x ==> a[i] in b
    ensures Wanted(b, x, v)
  {
    var i :| 0 <= i < |a| && a[i].id == x && a[i].enabled && BindOf(a[i]) == v;
    assert a[i] in b;
  }

  lemma DeleteForwards(s: State, id: Id, t: State)
    requires ForwardsOk(s) && ListsOk(s) && s.op.Free? && HasId(s.mappings, id)
    requires t == s.(op := Deleting(id), mappings := Without(s.mappings, id))
    ensures ForwardsOk(t)
  {
    DeleteLists(s, id);
    forall x: Id ensures ForwardOk(t, x) {
      assert ForwardOk(s, x);
      if x in s.forwards && x != id { WantedStays(s.mappings, t.mappings, x, s.forwards[x]); }
    }
  }

  lemma DeleteCover(s: State, id: Id, t: State)
    requires CoverOk(s) && ListsOk(s) && s.op.Free? && HasId(s.mappings, id)
    requires t == s.(op := Deleting(id), mappings := Without(s.mappings, id))
    ensures CoverOk(t)
  {
    DeleteLists(s, id);
    forall i | t.restored && 0 <= i < |t.mappings| ensures Covered(t, t.mappings[i]) {
      assert t.mappings[i] in s.mappings;
      var j :| 0 <= j < |s.mappings| && s.mappings[j] == t.mappings[i];
      assert Covered(s, s.mappings[j]);
    }
  }

  lemma DeleteKeeps(s: State, id: Id)
    requires Inv(s) && s.op.Free? && HasId(s.mappings, id)
    ensures Inv(Step(s, Delete(id, true)))
  {
    var t := Step(s, Delete(id, true));
    DeleteLists(s, id);
    SameSockets(s, t);
    DeleteForwards(s, id, t);
    DeleteCover(s, id, t);
  }

  lemma RemovedValues(f: map<Id, Bind>, id: Id, b: Bind)
    requires id in f && Injective(f)
    ensures b in (f - {id}).Values <==> b in f.Values && b != f[id]
  {
    var g := f - {id};
    if b in f.Values && b != f[id] {
      var x :| x in f && f[x] == b;
      assert g[x] == b;
    }
  }

  lemma FinishSockets(s: State)
    requires SocketsOk(s) && ForwardsOk(s) && s.op.Deleting?
    ensures SocketsOk(DeleteStep(s, DeleteFinishes))
  {
    var t, id := DeleteStep(s, DeleteFinishes), s.op.id;
    forall b: Bind ensures BindOk(t, b) && (InHand(t, b) ==> b !in t.forwards.Values) {
      assert BindOk(s, b);
      if id in s.forwards { RemovedValues(s.forwards, id, b); }
    }
  }

  lemma FinishForwards(s: State)
    requires ForwardsOk(s) && s.op.Deleting?
    ensures ForwardsOk(DeleteStep(s, DeleteFinishes))
  {
    var t := DeleteStep(s, DeleteFinishes);
    forall x: Id ensures ForwardOk(t, x) { assert ForwardOk(s, x); }
  }

  lemma FinishCover(s: State)
    requires CoverOk(s) && HolderOk(s) && s.op.Deleting?
    ensures CoverOk(DeleteStep(s, DeleteFinishes))
  {
    var t := DeleteStep(s, DeleteFinishes);
    forall i | t.restored && 0 <= i < |t.mappings| ensures Covered(t, t.mappings[i]) {
      assert Covered(s, s.mappings[i]);
    }
  }

  lemma DeleteFinishKeeps(s: State)
    requires Inv(s) && s.op.Deleting?
    ensures Inv(Step(s, DeleteFinishes))
  {
    FinishSockets(s);
    FinishForwards(s);
    FinishCover(s);
  }

  // ---- restore ----

  lemma OneBind(ms: seq<Mapping>, id: Id, a: Bind, b: Bind)
    requires Separate(ms) && Wanted(ms, id, a) && Wanted(ms, id, b)
    ensures a == b
  {
    var i :| 0 <= i < |ms| && ms[i].id == id && ms[i].enabled && BindOf(ms[i]) == a;
    var j :| 0 <= j < |ms| && ms[j].id == id && ms[j].enabled && BindOf(ms[j]) == b;
  }

  lemma MarkedWanted(ms: seq<Mapping>, id: Id, fault: string, x: Id, b: Bind)
    requires Wanted(ms, x, b)
    ensures Wanted(Marked(ms, id, fault), x, b)
  {
    var i :| 0 <= i < |ms| && ms[i].id == x && ms[i].enabled && BindOf(ms[i]) == b;
    assert Marked(ms, id, fault)[i].id == x;
  }

  lemma RestoreRuns(s: State, fault: string)
    requires Inv(s) && s.op.Restoring? && s.op.i < |s.op.c| && s.op.c[s.op.i].enabled
    requires Starts(s, s.op.c[s.op.i], fault)
    ensures Inv(Step(s, RestoreNext(fault)))
  {
    var t, m := Step(s, RestoreNext(fault)), s.op.c[s.op.i];
    assert s.mappings[s.op.i].(error := "") == m.(error := "");
    assert ForwardOk(s, m.id) && BindOk(s, BindOf(m));
    assert Wanted(s.mappings, m.id, BindOf(m));
    if m.id in s.forwards { OneBind(s.mappings, m.id, BindOf(m), s.forwards[m.id]); }
    Running(s, t, m);
  }

  /** A forwarder has been started for a mapping of the list that had none, on a free port. */
  ghost predicate HasStarted(s: State, t: State, m: Mapping) {
    && s.op.Restoring? && s.op.i < |s.op.c| && m == s.op.c[s.op.i]
    && m.id !in s.forwards && BindOf(m) !in s.bound && Wanted(s.mappings, m.id, BindOf(m))
    && t == s.(op := Restoring(s.op.c, s.op.i + 1), bound := s.bound + {BindOf(m)},
               forwards := s.forwards[m.id := BindOf(m)])
  }

  lemma StartedSockets(s: State, t: State, m: Mapping)
    requires SocketsOk(s) && HasStarted(s, t, m)
    ensures SocketsOk(t) && BindOf(m) !in s.forwards.Values
  {
    assert BindOk(s, BindOf(m));
    forall b: Bind ensures BindOk(t, b) && (InHand(t, b) ==> b !in t.forwards.Values) {
      assert BindOk(s, b);
      AddedValues(s.forwards, m.id, BindOf(m), b);
    }
  }

  lemma StartedForwards(s: State, t: State, m: Mapping)
    requires ForwardsOk(s) && HasStarted(s, t, m) && BindOf(m) !in s.forwards.Values
    ensures ForwardsOk(t)
  {
    forall x: Id ensures ForwardOk(t, x) { assert ForwardOk(s, x); }
  }

  lemma StartedCover(s: State, t: State, m: Mapping)
    requires CoverOk(s) && HolderOk(s) && HasStarted(s, t, m)
    ensures CoverOk(t) && HolderOk(t)
  {
    assert s.mappings[s.op.i].(error := "") == m.(error := "");
    forall j | 0 <= j < |t.mappings| && (j <= s.op.i || t.restored) ensures Covered(t, t.mappings[j]) {
      if j != s.op.i { assert Covered(s, s.mappings[j]); }
    }
  }

  lemma Running(s: State, t: State, m: Mapping)
    requires Inv(s) && HasStarted(s, t, m)
    ensures Inv(t)
  {
    StartedSockets(s, t, m);
    StartedForwards(s, t, m);
    StartedCover(s, t, m);
  }

  lemma RestoreMarks(s: State, fault: string)
    requires Inv(s) && s.op.Restoring? && s.op.i < |s.op.c| && s.op.c[s.op.i].enabled
    requires !Starts(s, s.op.c[s.op.i], fault)
    ensures Inv(Step(s, RestoreNext(fault)))
  {
    var t, m := Step(s, RestoreNext(fault)), s.op.c[s.op.i];
    assert s.mappings[s.op.i].(error := "") == m.(error := "");
    MarkedSane(s, m.id, Fault(fault));
    Erring(s, t, m, Fault(fault));
  }

  /** The mapping the restore is at gets an error. */
  ghost predicate Errs(s: State, t: State, m: Mapping, fault: string) {
    && s.op.Restoring? && s.op.i < |s.op.c| && m == s.op.c[s.op.i] && fault != ""
    && t == s.(op := Restoring(s.op.c, s.op.i + 1), mappings := Marked(s.mappings, m.id, fault))
  }

  lemma ErrsForwards(s: State, t: State, m: Mapping, fault: string)
    requires ForwardsOk(s) && Errs(s, t, m, fault)
    ensures ForwardsOk(t)
  {
    forall x: Id ensures ForwardOk(t, x) {
      assert ForwardOk(s, x);
      if x in s.forwards { MarkedWanted(s.mappings, m.id, fault, x, s.forwards[x]); }
    }
  }

  lemma ErrsCover(s: State, t: State, m: Mapping, fault: string)
    requires CoverOk(s) && HolderOk(s) && Errs(s, t, m, fault)
    ensures CoverOk(t) && HolderOk(t)
  {
    assert s.mappings[s.op.i].(error := "") == m.(error := "");
    forall j | 0 <= j < |s.mappings| ensures t.mappings[j].(error := "") == s.mappings[j].(error := "") { }
    forall j | 0 <= j < |t.mappings| && (j <= s.op.i || t.restored) ensures Covered(t, t.mappings[j]) {
      if j != s.op.i { assert Covered(s, s.mappings[j]); }
    }
  }

  lemma Erring(s: State, t: State, m: Mapping, fault: string)
    requires Inv(s) && Errs(s, t, m, fault)
    requires Separate(t.mappings) && Sane(t.devices, t.serverIP, t.mappings)
    ensures Inv(t)
  {
    SameSockets(s, t);
    ErrsForwards(s, t, m, fault);
    ErrsCover(s, t, m, fault);
  }

  lemma MarkedSane(s: State, id: Id, fault: string)
    requires Separate(s.mappings) && Sane(s.devices, s.serverIP, s.mappings)
    ensures var ms := Marked(s.mappings, id, fault); Separate(ms) && Sane(s.devices, s.serverIP, ms)
  {
    var ms := Marked(s.mappings, id, fault);
    forall i | 0 <= i < |ms| ensures ms[i].(error := "") == s.mappings[i].(error := "") { }
  }

  lemma BeginRestoreKeeps(s: State)
    requires Inv(s) && s.op.Free?
    ensures Inv(s.(op := Restoring(s.mappings, 0)))
  {
    var t := s.(op := Restoring(s.mappings, 0));
    SameSockets(s, t);
    SameForwards(s, t);
    SameCover(s, t);
  }

  /** The restore goes past a mapping that is not enabled. */
  lemma SkipKeeps(s: State)
    requires Inv(s) && s.op.Restoring? && s.op.i < |s.op.c| && !s.op.c[s.op.i].enabled
    ensures Inv(s.(op := Restoring(s.op.c, s.op.i + 1)))
  {
    var t := s.(op := Restoring(s.op.c, s.op.i + 1));
    SameSockets(s, t);
    SameForwards(s, t);
    SameCover(s, t);
    assert s.mappings[s.op.i].(error := "") == s.op.c[s.op.i].(error := "");
    forall j | 0 <= j <= s.op.i ensures Covered(t, t.mappings[j]) {
      if j < s.op.i { assert Covered(s, s.mappings[j]); }
    }
  }

  lemma EndRestoreKeeps(s: State)
    requires Inv(s) && s.op.Restoring? && s.op.i >= |s.op.c|
    ensures Inv(s.(op := Free, restored := true))
  {
    var t := s.(op := Free, restored := true);
    SameSockets(s, t);
    SameForwards(s, t);
    forall j | 0 <= j < |t.mappings| ensures Covered(t, t.mappings[j]) { assert Covered(s, s.mappings[j]); }
  }

  lemma RestoreKeeps(s: State, e: Event)
    requires Inv(s) && (e.BeginRestore? || e.RestoreNext?)
    ensures Inv(Step(s, e))
  {
    if e.BeginRestore? {
      if s.op.Free? { BeginRestoreKeeps(s); }
    } else if s.op.Restoring? {
      if s.op.i >= |s.op.c| { EndRestoreKeeps(s); }
      else if !s.op.c[s.op.i].enabled { SkipKeeps(s); }
      else if Starts(s, s.op.c[s.op.i], e.fault) { RestoreRuns(s, e.fault); }
      else { RestoreMarks(s, e.fault); }
    }
  }

  // ---- every run ----

  lemma JoinKeeps(s: State, device: Id, ip: string)
    requires Inv(s) && device !in s.devices
    ensures Inv(s.(devices := s.devices[device := ip]))
  {
    var t := s.(devices := s.devices[device := ip]);
    SameSockets(s, t);
    SameForwards(s, t);
    SameCover(s, t);
    forall j | 0 <= j < |t.mappings| && Covered(s, s.mappings[j]) ensures Covered(t, t.mappings[j]) { }
  }

  lemma DeletesKeep(s: State, e: Event)
    requires Inv(s) && OfDelete(e)
    ensures Inv(Step(s, e))
  {
    if e.Delete? {
      if s.op.Free? && HasId(s.mappings, e.id) && e.saves { DeleteKeeps(s, e.id); }
    } else if s.op.Deleting? {
      DeleteFinishKeeps(s);
    }
  }

  lemma StepKeeps(s: State, e: Event)
    requires Inv(s)
    ensures Inv(Step(s, e))
  {
    if OfPut(e) { PutKeeps(s, e); }
    else if OfDelete(e) { DeletesKeep(s, e); }
    else if e.Joins? { if e.device !in s.devices { JoinKeeps(s, e.device, e.ip); } }
    else { RestoreKeeps(s, e); }
  }

  lemma {:induction false} RunKeeps(s: State, events: seq<Event>)
    requires Inv(s)
    ensures Inv(ExecFrom(s, events))
    decreases |events|
  {
    if events != [] {
      StepKeeps(s, events[0]);
      RunKeeps(Step(s, events[0]), events[1..]);
    }
  }

  ghost predicate Loadable(serverIP: string, devices: map<Id, string>, ms: seq<Mapping>) {
    Separate(ms) && Sane(devices, serverIP, ms)
  }

  lemma StartInv(serverIP: string, devices: map<Id, string>, loaded: seq<Mapping>)
    requires Loadable(serverIP, devices, loaded)
    ensures Inv(Start(serverIP, devices, loaded))
  {
    var s := Start(serverIP, devices, loaded);
    forall b: Bind ensures BindOk(s, b) { }
    forall id: Id ensures ForwardOk(s, id) { }
  }

  /** In every run, with failed starts and saves, and puts before, while waiting for and after
      the restore: no two mappings share a listen port in UDP or in TCP and HTTP, every mapping is well formed and
      does not forward to its own listener; and whenever the lock is free, the bound sockets
      are exactly those of the forwards, whose ids are those of enabled mappings; and after the
      restore every enabled mapping that does not run has an error. */
  lemma EveryRunAgrees(serverIP: string, devices: map<Id, string>, loaded: seq<Mapping>, events: seq<Event>)
    requires Loadable(serverIP, devices, loaded)
    ensures var s := ExecFrom(Start(serverIP, devices, loaded), events);
      && Separate(s.mappings) && Sane(s.devices, s.serverIP, s.mappings)
      && (forall b: Bind :: b in s.bound <==> b in s.forwards.Values || InHand(s, b))
      && Injective(s.forwards)
      && (s.op.Free? ==>
           && s.bound == s.forwards.Values
           && (forall id :: id in s.forwards ==> Wanted(s.mappings, id, s.forwards[id])))
      && (s.restored && s.op.Free? ==> forall i :: 0 <= i < |s.mappings| ==>
           s.mappings[i].enabled && s.mappings[i].id !in s.forwards ==> s.mappings[i].error != "")
  {
    StartInv(serverIP, devices, loaded);
    RunKeeps(Start(serverIP, devices, loaded), events);
    var s := ExecFrom(Start(serverIP, devices, loaded), events);
    forall b: Bind ensures b in s.bound <==> b in s.forwards.Values || InHand(s, b) { assert BindOk(s, b); }
    if s.op.Free? {
      forall id | id in s.forwards ensures Wanted(s.mappings, id, s.forwards[id]) { assert ForwardOk(s, id); }
      if s.restored {
        forall i | 0 <= i < |s.mappings| && s.mappings[i].enabled && s.mappings[i].id !in s.forwards
          ensures s.mappings[i].error != ""
        {
          assert Covered(s, s.mappings[i]);
        }
      }
    }
  }

  /** The mapping is enabled and has a forwarder. */
  ghost predicate Runs(s: State, i: nat) {
    i < |s.mappings| && s.mappings[i].enabled && s.mappings[i].id in s.forwards
  }

  /** One listen port may be used once for UDP and once for TCP or HTTP. */
  lemma PortsApart(s: State)
    requires Inv(s)
    ensures forall i, j :: 0 <= i < j < |s.mappings| && s.mappings[i].listen == s.mappings[j].listen ==>
      (s.mappings[i].protocol == "udp") != (s.mappings[j].protocol == "udp")
  {
    forall i, j | 0 <= i < j < |s.mappings| && s.mappings[i].listen == s.mappings[j].listen
      ensures (s.mappings[i].protocol == "udp") != (s.mappings[j].protocol == "udp")
    {
      assert BindOf(s.mappings[i]) != BindOf(s.mappings[j]);
    }
  }

  /** A port is bound for a running mapping and for nothing else. */
  lemma BoundMeans(s: State, udp: bool, port: int)
    requires Inv(s) && s.op.Free?
    ensures Bind(udp, port) in s.bound <==>
      exists i :: 0 <= i < |s.mappings| && Runs(s, i) && s.mappings[i].listen == port
                  && (s.mappings[i].protocol == "udp") == udp
  {
    var b := Bind(udp, port);
    assert BindOk(s, b);
    if b in s.bound {
      var id :| id in s.forwards && s.forwards[id] == b;
      assert ForwardOk(s, id);
      var i :| 0 <= i < |s.mappings| && s.mappings[i].id == id && s.mappings[i].enabled && BindOf(s.mappings[i]) == b;
      assert Runs(s, i);
    }
    if i :| 0 <= i < |s.mappings| && Runs(s, i) && s.mappings[i].listen == port
            && (s.mappings[i].protocol == "udp") == udp
    {
      RunningIsBound(s, i);
    }
  }

  /** In every run each listen port is used at most once for UDP and once for TCP or HTTP, and whenever
      the lock is free exactly the ports of the running mappings are bound. */
  lemma EveryRunBindsItsPorts(serverIP: string, devices: map<Id, string>, loaded: seq<Mapping>, events: seq<Event>)
    requires Loadable(serverIP, devices, loaded)
    ensures var s := ExecFrom(Start(serverIP, devices, loaded), events);
      && (forall i, j :: 0 <= i < j < |s.mappings| && s.mappings[i].listen == s.mappings[j].listen ==>
           (s.mappings[i].protocol == "udp") != (s.mappings[j].protocol == "udp"))
      && (s.op.Free? ==> forall udp, port :: Bind(udp, port) in s.bound <==>
           exists i :: 0 <= i < |s.mappings| && Runs(s, i) && s.mappings[i].listen == port
                       && (s.mappings[i].protocol == "udp") == udp)
  {
    StartInv(serverIP, devices, loaded);
    RunKeeps(Start(serverIP, devices, loaded), events);
    var s := ExecFrom(Start(serverIP, devices, loaded), events);
    PortsApart(s);
    if s.op.Free? { forall udp, port { BoundMeans(s, udp, port); } }
  }

  /** A device that joins is known with its address, unless it was known before, and nothing else
      changes. */
  lemma DeviceJoins(s: State, device: Id, ip: string)
    ensures var t := Step(s, Joins(device, ip));
      && t == s.(devices := t.devices) && t.devices.Keys == s.devices.Keys + {device}
      && forall d :: d in t.devices ==> t.devices[d] == if d in s.devices then s.devices[d] else ip
  {
  }

  /** What a put does, from the free lock to the free lock. */
  function PutAll(s: State, m: Mapping, id: Id, fault: string, saves: bool): State {
    Step(Step(Step(Step(s, Put(m, id)), PutStarts(fault)), PutSaves(saves)), PutFinishes)
  }

  /** A put takes effect as a whole or not at all: a failed start or save leaves the list, the
      forwards and the sockets as they were. */
  lemma PutIsAllOrNothing(s: State, m: Mapping, id: Id, fault: string, saves: bool)
    requires Inv(s) && s.op.Free? && id != "" && !HasId(s.mappings, id) && id !in s.forwards
    ensures var t := PutAll(s, m, id, fault, saves);
      var kept := m.(id := id, error := "");
      if m.id == "" && Accepts(s, m) && (m.enabled ==> Starts(s, m, fault)) && saves then
        t == s.(mappings := s.mappings + [kept],
                forwards := if m.enabled then s.forwards[id := BindOf(m)] else s.forwards,
                bound := if m.enabled then s.bound + {BindOf(m)} else s.bound)
      else t == s
  {
    var s1 := Step(s, Put(m, id));
    var s2 := Step(s1, PutStarts(fault));
    var s3 := Step(s2, PutSaves(saves));
    var t := Step(s3, PutFinishes);
    if m.id == "" && Accepts(s, m) {
      var kept := m.(id := id, error := "");
      assert s1 == s.(op := Putting(kept));
      if m.enabled && !Starts(s, m, fault) {
        assert s2 == s && s3 == s && t == s;
      } else if m.enabled {
        assert s2 == s.(op := Started(kept), bound := s.bound + {BindOf(m)});
        assert s.bound + {BindOf(m)} - {BindOf(m)} == s.bound;
      } else {
        assert s2 == s.(op := Started(kept));
      }
    } else {
      assert s1 == s && s2 == s && s3 == s;
    }
  }

  function DeleteAll(s: State, id: Id, saves: bool): State { Step(Step(s, Delete(id, saves)), DeleteFinishes) }

  /** A delete takes out the mapping, its forwarder and its socket, or nothing if it is unknown
      or the save fails. */
  lemma DeleteIsAllOrNothing(s: State, id: Id, saves: bool)
    requires Inv(s) && s.op.Free?
    ensures var t := DeleteAll(s, id, saves);
      && Inv(t)
      && if HasId(s.mappings, id) && saves then
           t == s.(mappings := Without(s.mappings, id), forwards := s.forwards - {id},
                   bound := if id in s.forwards then s.bound - {s.forwards[id]} else s.bound)
         else t == s
  {
    var u := Step(s, Delete(id, saves));
    StepKeeps(s, Delete(id, saves));
    StepKeeps(u, DeleteFinishes);
    if HasId(s.mappings, id) && saves {
      assert u == s.(op := Deleting(id), mappings := Without(s.mappings, id));
      if id !in s.forwards { assert s.forwards - {id} == s.forwards; }
    } else {
      assert u == s;
    }
  }

  /** A restore leaves an enabled mapping running with an error exactly if it ran before, when
      starting it a second time finds its own port bound, or if it starts now but comes with
      an error from the file. */
  lemma MarkedThoughRunning(s: State, fault: string)
    requires Inv(s) && s.op.Restoring? && s.op.i < |s.op.c| && s.op.c[s.op.i].enabled
    ensures var t, i := Step(s, RestoreNext(fault)), s.op.i;
      var m := s.mappings[i];
      t.mappings[i].error != "" && m.id in t.forwards <==>
        m.id in s.forwards || (Starts(s, m, fault) && m.error != "")
  {
    var m := s.mappings[s.op.i];
    assert m.(error := "") == s.op.c[s.op.i].(error := "");
    if m.id in s.forwards { RunningIsBound(s, s.op.i); }
  }

  /** The port of a running mapping is bound, so it cannot be started again. */
  lemma RunningIsBound(s: State, i: nat)
    requires Inv(s) && !s.op.Deleting? && i < |s.mappings| && s.mappings[i].enabled && s.mappings[i].id in s.forwards
    ensures BindOf(s.mappings[i]) in s.bound
  {
    var m := s.mappings[i];
    assert ForwardOk(s, m.id);
    assert Wanted(s.mappings, m.id, BindOf(m));
    OneBind(s.mappings, m.id, BindOf(m), s.forwards[m.id]);
    assert s.forwards[m.id] in s.forwards.Values;
    assert BindOk(s, BindOf(m));
  }

  lemma FirstEvent(s: State, e: Event, rest: seq<Event>)
    ensures ExecFrom(s, [e] + rest) == ExecFrom(Step(s, e), rest)
  {
    assert ([e] + rest)[1..] == rest;
  }

  /** The events of a put in which nothing fails. */
  function PutEvents(x: Mapping, id: Id): seq<Event> { [Put(x, id), PutStarts(""), PutSaves(true), PutFinishes] }

  lemma PutRun(s: State, x: Mapping, id: Id, rest: seq<Event>)
    ensures ExecFrom(s, PutEvents(x, id) + rest) == ExecFrom(PutAll(s, x, id, "", true), rest)
  {
    var s1 := Step(s, Put(x, id));
    var s2 := Step(s1, PutStarts(""));
    var e3 := [PutFinishes] + rest;
    var e2 := [PutSaves(true)] + e3;
    var e1 := [PutStarts("")] + e2;
    FirstEvent(Step(s2, PutSaves(true)), PutFinishes, rest);
    FirstEvent(s2, PutSaves(true), e3);
    FirstEvent(s1, PutStarts(""), e2);
    FirstEvent(s, Put(x, id), e1);
    assert PutEvents(x, id) + rest == [Put(x, id)] + e1;
  }

  lemma RestoreRun(s: State)
    ensures ExecFrom(s, [BeginRestore, RestoreNext("")]) == Step(Step(s, BeginRestore), RestoreNext(""))
  {
    var t := Step(s, BeginRestore);
    assert [RestoreNext("")] + [] == [RestoreNext("")];
    FirstEvent(t, RestoreNext(""), []);
    assert [BeginRestore] + [RestoreNext("")] == [BeginRestore, RestoreNext("")];
    FirstEvent(s, BeginRestore, [RestoreNext("")]);
  }

  /** Such a run: a mapping that is put while the restore has not begun runs, and the restore
      marks it. */
  lemma PutBeforeRestoreIsMarked(ip: string, devices: map<Id, string>, x: Mapping, id: Id)
    requires x.id == "" && id != "" && x.enabled && Accepts(Start(ip, devices, []), x)
    ensures var s := ExecFrom(Start(ip, devices, []), PutEvents(x, id) + [BeginRestore, RestoreNext("")]);
      && s.op.Restoring? && s.op.i == |s.op.c| == 1
      && s.mappings == [x.(id := id, error := Fault(""))] && s.forwards == map[id := BindOf(x)]
  {
    var s0, kept := Start(ip, devices, []), x.(id := id, error := "");
    StartInv(ip, devices, []);
    PutIsAllOrNothing(s0, x, id, "", true);
    PutRun(s0, x, id, [BeginRestore, RestoreNext("")]);
    var s := PutAll(s0, x, id, "", true);
    assert s.mappings == [kept];
    RestoreRun(s);
    RestoreMarksIt(s, kept);
  }

  lemma RestoreMarksIt(s: State, m: Mapping)
    requires s.op.Free? && s.mappings == [m] && m.enabled && BindOf(m) in s.bound
    ensures var t := Step(Step(s, BeginRestore), RestoreNext(""));
      && t.mappings == [m.(error := Fault(""))] && t.forwards == s.forwards
      && t.op == Restoring([m], 1)
  {
    var u := Step(s, BeginRestore);
    assert !Starts(u, m, "");
    assert Marked([m], m.id, Fault("")) == [m.(error := Fault(""))];
  }

  // ---- what a restore does ----

  /** The forwarder of mapping i can be started: nothing else has its port. */
  ghost predicate CanStart(s: State, faults: seq<string>, i: nat)
    requires i < |faults| == |s.mappings|
  {
    var x := s.mappings[i];
    x.enabled && faults[i] == "" && x.device in s.devices && Bind(x.protocol == "udp", x.listen) !in s.bound
  }

  /** Mapping i after the restore has been at it: one that cannot be started has an error, any other is
      as it was. */
  ghost function Restored(s: State, faults: seq<string>, i: nat): Mapping
    requires i < |faults| == |s.mappings|
  {
    var x := s.mappings[i];
    if !x.enabled || CanStart(s, faults, i) then x
    else x.(error := if faults[i] == "" then "listen failed" else faults[i])
  }

  /** Mapping i runs on its own port if it could be started, and otherwise as before. */
  ghost predicate ForwardFrom(was: State, now: State, faults: seq<string>, n: nat, i: nat)
    requires n <= |faults| == |was.mappings| && i < |was.mappings|
  {
    var x := was.mappings[i];
    if i < n && CanStart(was, faults, i)
    then x.id in now.forwards && now.forwards[x.id] == Bind(x.protocol == "udp", x.listen)
    else (x.id in now.forwards <==> x.id in was.forwards)
         && (x.id in was.forwards ==> now.forwards[x.id] == was.forwards[x.id])
  }

  /** The port is bound if it was, or if it is that of a mapping that could be started. */
  ghost predicate BoundFrom(was: State, now: State, faults: seq<string>, n: nat, b: Bind)
    requires n <= |faults| == |was.mappings|
  {
    b in now.bound <==> b in was.bound || exists i :: 0 <= i < n && CanStart(was, faults, i) && PortIs(was, i, b)
  }

  ghost predicate PortIs(s: State, i: nat, b: Bind) {
    i < |s.mappings| && b.port == s.mappings[i].listen && b.udp == (s.mappings[i].protocol == "udp")
  }

  /** From `was`, with one fault for each mapping, the first n have been restored. */
  ghost predicate RestoredTo(was: State, now: State, faults: seq<string>, n: nat)
    requires n <= |faults| == |was.mappings|
  {
    && |now.mappings| == |was.mappings| && now.devices == was.devices
    && (forall i :: 0 <= i < |was.mappings| ==>
         now.mappings[i] == if i < n then Restored(was, faults, i) else was.mappings[i])
    && (forall i :: 0 <= i < |was.mappings| ==> ForwardFrom(was, now, faults, n, i))
    && (forall b: Bind :: BoundFrom(was, now, faults, n, b))
  }

  /** No two mappings share an id or a port, so what was restored before is no obstacle. */
  lemma StartsAsFirst(was: State, s: State, faults: seq<string>, n: nat)
    requires Separate(was.mappings) && n < |faults| == |was.mappings| && RestoredTo(was, s, faults, n)
    requires was.mappings[n].enabled
    ensures Starts(s, was.mappings[n], faults[n]) <==> CanStart(was, faults, n)
  {
    var b := BindOf(was.mappings[n]);
    assert BoundFrom(was, s, faults, n, b);
    forall i | 0 <= i < n ensures !PortIs(was, i, b) { assert BindOf(was.mappings[i]) != b; }
  }

  lemma StartRestores(was: State, s: State, faults: seq<string>, n: nat, t: State)
    requires Separate(was.mappings) && n < |faults| == |was.mappings| && RestoredTo(was, s, faults, n)
    requires CanStart(was, faults, n)
    requires var x := was.mappings[n];
      t == s.(op := t.op, bound := s.bound + {BindOf(x)}, forwards := s.forwards[x.id := BindOf(x)])
    ensures RestoredTo(was, t, faults, n + 1)
  {
    var k := n + 1;
    forall i | 0 <= i < |was.mappings| ensures ForwardFrom(was, t, faults, k, i) {
      assert ForwardFrom(was, s, faults, n, i);
      if i < n { assert was.mappings[i].id != was.mappings[n].id; }
    }
    forall b: Bind ensures BoundFrom(was, t, faults, k, b) {
      assert BoundFrom(was, s, faults, n, b);
      assert PortIs(was, n, BindOf(was.mappings[n]));
    }
  }

  lemma OthersRestore(was: State, s: State, faults: seq<string>, n: nat, t: State)
    requires Separate(was.mappings) && n < |faults| == |was.mappings| && RestoredTo(was, s, faults, n)
    requires !CanStart(was, faults, n)
    requires var x := was.mappings[n];
      t == s.(op := t.op, mappings := if x.enabled then Marked(s.mappings, x.id, Fault(faults[n])) else s.mappings)
    ensures RestoredTo(was, t, faults, n + 1)
  {
    var k := n + 1;
    forall i | 0 <= i < |was.mappings|
      ensures t.mappings[i] == if i < n + 1 then Restored(was, faults, i) else was.mappings[i]
    {
      if i != n {
        assert was.mappings[i].id != was.mappings[n].id;
      }
    }
    forall i | 0 <= i < |was.mappings| ensures ForwardFrom(was, t, faults, k, i) {
      assert ForwardFrom(was, s, faults, n, i);
    }
    forall b: Bind ensures BoundFrom(was, t, faults, k, b) { assert BoundFrom(was, s, faults, n, b); }
  }

  lemma RestoresOne(was: State, s: State, faults: seq<string>, n: nat)
    requires Inv(was) && n < |faults| == |was.mappings| && RestoredTo(was, s, faults, n)
    requires s.op == Restoring(was.mappings, n)
    ensures var t := Step(s, RestoreNext(faults[n]));
      RestoredTo(was, t, faults, n + 1) && t.op == Restoring(was.mappings, n + 1)
  {
    var t := Step(s, RestoreNext(faults[n]));
    if was.mappings[n].enabled { StartsAsFirst(was, s, faults, n); }
    if CanStart(was, faults, n) { StartRestores(was, s, faults, n, t); }
    else { OthersRestore(was, s, faults, n, t); }
  }

  lemma RestoreBegins(s: State, faults: seq<string>)
    requires Inv(s) && s.op.Free? && |faults| == |s.mappings|
    ensures var t := Step(s, BeginRestore);
      Inv(t) && t == s.(op := Restoring(s.mappings, 0)) && RestoredTo(s, t, faults, 0)
  {
    StepKeeps(s, BeginRestore);
  }

  lemma RestoreIsOver(was: State, s: State, faults: seq<string>)
    requires |faults| == |was.mappings| && RestoredTo(was, s, faults, |faults|)
    requires s.op == Restoring(was.mappings, |was.mappings|)
    ensures var t := Step(s, RestoreNext(""));
      RestoredTo(was, t, faults, |faults|) && t == s.(op := Free, restored := true)
  {
    var t, n := Step(s, RestoreNext("")), |faults|;
    forall i | 0 <= i < n ensures ForwardFrom(was, t, faults, n, i) { assert ForwardFrom(was, s, faults, n, i); }
    forall b: Bind ensures BoundFrom(was, t, faults, n, b) { assert BoundFrom(was, s, faults, n, b); }
  }

  /** The steps of a restore whose attempts to start meet these faults. */
  function Nexts(faults: seq<string>): seq<Event> {
    if faults == [] then [RestoreNext("")] else [RestoreNext(faults[0])] + Nexts(faults[1..])
  }

  lemma {:induction false} RestoresRest(was: State, s: State, faults: seq<string>, n: nat)
    requires Inv(was) && n <= |faults| == |was.mappings| && RestoredTo(was, s, faults, n)
    requires s.op == Restoring(was.mappings, n)
    ensures var t := ExecFrom(s, Nexts(faults[n..]));
      RestoredTo(was, t, faults, |faults|) && t.op.Free? && t.restored
    decreases |faults| - n
  {
    if n == |faults| {
      RestoreIsOver(was, s, faults);
      FirstEvent(s, RestoreNext(""), []);
      assert faults[n..] == [] && [RestoreNext("")] + [] == Nexts([]);
    } else {
      RestoresOne(was, s, faults, n);
      assert faults[n..][1..] == faults[n + 1..];
      FirstEvent(s, RestoreNext(faults[n]), Nexts(faults[n + 1..]));
      RestoresRest(was, Step(s, RestoreNext(faults[n])), faults, n + 1);
    }
  }

  /** From any reachable state with a free lock, a restore starts exactly the enabled mappings whose
      device is known and whose port is free, as long as starting them meets no fault; the other enabled
      ones get their error, and nothing else changes. */
  lemma RestoreStartsMappings(
    serverIP: string, devices: map<Id, string>, loaded: seq<Mapping>, before: seq<Event>, faults: seq<string>)
    requires Loadable(serverIP, devices, loaded)
    requires var s := ExecFrom(Start(serverIP, devices, loaded), before);
      s.op.Free? && |faults| == |s.mappings|
    ensures var s := ExecFrom(Start(serverIP, devices, loaded), before);
      var t := ExecFrom(s, [BeginRestore] + Nexts(faults));
      RestoredTo(s, t, faults, |faults|) && t.op.Free? && t.restored
  {
    var s := ExecFrom(Start(serverIP, devices, loaded), before);
    StartInv(serverIP, devices, loaded);
    RunKeeps(Start(serverIP, devices, loaded), before);
    FirstEvent(s, BeginRestore, Nexts(faults));
    assert faults[0..] == faults;
    RestoresRest(s, Step(s, BeginRestore), faults, 0);
  }

  // ---- the handlers ----

  class MappingTable {
    const serverIP: string
    var devices: map<Id, string>
    var mappings: seq<Mapping>
    var forwards: map<Id, Bind>
    var bound: set<Bind>
    ghost var m: State

    ghost predicate Valid() reads this { Agrees() && m.op.Free? }

    ghost predicate Agrees() reads this {
      && m.serverIP == serverIP && m.devices == devices && m.mappings == mappings
      && m.forwards == forwards && m.bound == bound && Inv(m)
    }

    constructor (ip: string, known: map<Id, string>, loaded: seq<Mapping>)
      requires Loadable(ip, known, loaded)
      ensures Valid() && m == Start(ip, known, loaded)
    {
      StartInv(ip, known, loaded);
      serverIP, devices := ip, known;
      mappings, forwards, bound := loaded, map[], {};
      m := Start(ip, known, loaded);
    }

    method Validate(x: Mapping) returns (ok: bool)
      ensures ok <==> WellFormed(x) && Targets(devices, serverIP, x) && !Taken(mappings, BindOf(x))
      ensures ok <==>
        && 1024 <= x.listen <= 65535 && 1 <= x.target <= 65535 && 1 <= |x.name| <= 80
        && x.protocol in ["tcp", "udp", "http"]
        && |x.domain| <= 253 && (forall c :: c in x.domain ==> c !in "/\\\r\n :")
        && x.device in devices && (devices[x.device] == serverIP ==> x.listen != x.target)
        && forall i :: 0 <= i < |mappings| && mappings[i].listen == x.listen ==>
             (mappings[i].protocol == "udp") != (x.protocol == "udp")
    {
      if x.listen < 1024 || !PortOk(x.listen) || !PortOk(x.target) || |x.name| < 1 || |x.name| > 80 {
        return false;
      }
      if x.protocol != "tcp" && x.protocol != "udp" && x.protocol != "http" {
        return false;
      }
      if |x.domain| > 253 {
        return false;
      }
      var i := 0;
      while i < |x.domain|
        invariant 0 <= i <= |x.domain| && forall j :: 0 <= j < i ==> !Unsafe(x.domain[j])
        invariant forall j :: 0 <= j < i ==> x.domain[j] !in "/\\\r\n :"
      {
        UnsafeMeans(x.domain[i]);
        if Unsafe(x.domain[i]) {
          return false;
        }
        i := i + 1;
      }
      if x.device !in devices || (devices[x.device] == serverIP && x.listen == x.target) {
        return false;
      }
      i := 0;
      while i < |mappings|
        invariant 0 <= i <= |mappings| && forall j :: 0 <= j < i ==> BindOf(mappings[j]) != BindOf(x)
      {
        if mappings[i].listen == x.listen && ((mappings[i].protocol == "udp") == (x.protocol == "udp")) {
          return false;
        }
        i := i + 1;
      }
      ok := true;
    }

    /** `fault` is the error of starting the forwarder, if it does not fail anyway. */
    method PutMapping(x: Mapping, id: Id, fault: string, saves: bool) returns (ok: bool)
      requires Valid() && id != "" && !HasId(mappings, id) && id !in forwards
      modifies this
      ensures Valid()
      ensures m == PutAll(old(m), x, id, fault, saves)
      ensures ok <==> x.id == "" && Accepts(old(m), x) && (x.enabled ==> Starts(old(m), x, fault)) && saves
      ensures ok && x.enabled ==> fault == "" && Bind(x.protocol == "udp", x.listen) !in old(bound)
      ensures ok ==> mappings == old(mappings) + [x.(id := id, error := "")]
      ensures ok ==>
        var b := Bind(x.protocol == "udp", x.listen);
        && forwards == (if x.enabled then old(forwards)[id := b] else old(forwards))
        && bound == if x.enabled then old(bound) + {b} else old(bound)
      ensures !ok ==> mappings == old(mappings) && forwards == old(forwards) && bound == old(bound)
    {
      PutIsAllOrNothing(m, x, id, fault, saves);
      PutAllKeeps(m, x, id, fault, saves);
      m := PutAll(m, x, id, fault, saves);
      if x.id != "" {
        return false;
      }
      var passes := Validate(x);
      if !passes {
        return false;
      }
      if x.enabled {
        if fault != "" || x.device !in devices || BindOf(x) in bound {
          return false;
        }
        bound := bound + {BindOf(x)};
      }
      mappings := mappings + [x.(id := id, error := "")];
      if !saves {
        mappings := mappings[..|mappings| - 1];
        if x.enabled {
          bound := bound - {BindOf(x)};
        }
        return false;
      }
      if x.enabled {
        forwards := forwards[id := BindOf(x)];
      }
      ok := true;
    }

    /** Take the first mapping of this id out of the list, in place. */
    method Remove(id: Id) returns (found: bool)
      modifies this`mappings
      ensures found <==> HasId(old(mappings), id)
      ensures mappings == if found then Without(old(mappings), id) else old(mappings)
      ensures found ==> FirstCut(old(mappings), mappings, id)
    {
      found := false;
      var i := 0;
      while i < |mappings|
        invariant 0 <= i <= |mappings| && mappings == old(mappings)
        invariant forall j :: 0 <= j < i ==> mappings[j].id != id
      {
        if mappings[i].id == id {
          ghost var k := WithoutIs(mappings, id);
          assert k == i;
          mappings := mappings[..i] + mappings[i + 1..];
          return true;
        }
        i := i + 1;
      }
    }

    /** Take the mapping out and save; a failed save puts the old list back. */
    method Drop(id: Id, saves: bool) returns (ok: bool)
      modifies this`mappings
      ensures ok <==> HasId(old(mappings), id) && saves
      ensures mappings == if ok then Without(old(mappings), id) else old(mappings)
      ensures ok ==> FirstCut(old(mappings), mappings, id)
    {
      var before := mappings;
      var found := Remove(id);
      if found && !saves {
        mappings := before;
      }
      ok := found && saves;
    }

    /** A mapping is deleted, and its forwarder stopped; after a failed save it goes on running. */
    method DeleteMapping(id: Id, saves: bool) returns (ok: bool)
      requires Valid()
      modifies this
      ensures Valid() && m == DeleteAll(old(m), id, saves)
      ensures ok <==> HasId(old(mappings), id) && saves
      ensures ok ==> mappings == Without(old(mappings), id) && FirstCut(old(mappings), mappings, id)
      ensures ok ==> forwards == old(forwards) - {id}
      ensures ok ==> bound == if id in old(forwards) then old(bound) - {old(forwards)[id]} else old(bound)
      ensures !ok ==> mappings == old(mappings) && forwards == old(forwards) && bound == old(bound)
    {
      DeleteIsAllOrNothing(m, id, saves);
      m := DeleteAll(m, id, saves);
      ok := Drop(id, saves);
      if ok && id in forwards {
        bound := bound - {forwards[id]};
        forwards := forwards - {id};
      }
    }

    /** Write an error into the mapping of this id. */
    method Mark(id: Id, fault: string)
      modifies this`mappings
      ensures mappings == Marked(old(mappings), id, fault)
    {
      var i := 0;
      while i < |mappings|
        invariant 0 <= i <= |mappings| == |old(mappings)|
        invariant forall j :: 0 <= j < i ==>
          mappings[j] == if old(mappings)[j].id == id then old(mappings)[j].(error := fault) else old(mappings)[j]
        invariant forall j :: i <= j < |mappings| ==> mappings[j] == old(mappings)[j]
      {
        if mappings[i].id == id {
          mappings := mappings[i := mappings[i].(error := fault)];
        }
        i := i + 1;
      }
    }

    /** One mapping of the snapshot that the restore works on. */
    method RestoreOne(x: Mapping, fault: string)
      requires Agrees() && m.op.Restoring? && m.op.i < |m.op.c| && m.op.c[m.op.i] == x
      modifies this
      ensures Agrees() && m == Step(old(m), RestoreNext(fault))
      ensures m.op == Restoring(old(m).op.c, old(m).op.i + 1)
    {
      StepKeeps(m, RestoreNext(fault));
      ghost var s := m;
      m := Step(m, RestoreNext(fault));
      if x.enabled {
        if fault == "" && x.device in devices && BindOf(x) !in bound {
          assert Starts(s, x, fault);
          bound := bound + {BindOf(x)};
          forwards := forwards[x.id := BindOf(x)];
        } else {
          Mark(x.id, Fault(fault));
        }
      }
    }

    /** Start every enabled mapping of the loaded list; `faults` are the errors met. */
    method RestoreMappings(faults: seq<string>)
      requires Valid() && |faults| == |mappings|
      modifies this
      ensures Valid() && m.restored && |mappings| == |old(mappings)|
      ensures forall i :: 0 <= i < |mappings| ==> mappings[i].(error := "") == old(mappings)[i].(error := "")
      ensures forall i :: 0 <= i < |mappings| ==> Covered(m, mappings[i])
      ensures RestoredTo(old(m), m, faults, |faults|)
    {
      var maps := mappings;
      RestoreBegins(m, faults);
      m := Step(m, BeginRestore);
      RestoreEach(maps, faults, old(m));
      RestoreEnds(m);
      RestoreIsOver(old(m), m, faults);
      m := Step(m, RestoreNext(""));
    }

    /** The loop over the snapshot. */
    method RestoreEach(maps: seq<Mapping>, faults: seq<string>, ghost was: State)
      requires Agrees() && m.op == Restoring(maps, 0)
      requires Inv(was) && maps == was.mappings && |faults| == |maps| && RestoredTo(was, m, faults, 0)
      modifies this
      ensures Agrees() && m.op == Restoring(maps, |maps|)
      ensures RestoredTo(was, m, faults, |faults|)
    {
      var i := 0;
      while i < |maps|
        invariant 0 <= i <= |maps| && Agrees() && m.op == Restoring(maps, i)
        invariant RestoredTo(was, m, faults, i)
      {
        RestoresOne(was, m, faults, i);
        RestoreOne(maps[i], faults[i]);
        i := i + 1;
      }
    }
  }

  /** When the restore is through the list, every mapping is covered and none has changed but
      for its error. */
  lemma RestoreEnds(s: State)
    requires Inv(s) && s.op.Restoring? && s.op.i == |s.op.c|
    ensures var t := Step(s, RestoreNext(""));
      && Inv(t) && t == s.(op := Free, restored := true) && |t.mappings| == |s.op.c|
      && (forall i :: 0 <= i < |t.mappings| ==> t.mappings[i].(error := "") == s.op.c[i].(error := ""))
      && (forall i :: 0 <= i < |t.mappings| ==> Covered(t, t.mappings[i]))
  {
    StepKeeps(s, RestoreNext(""));
  }

  lemma PutAllKeeps(s: State, x: Mapping, id: Id, fault: string, saves: bool)
    requires Inv(s)
    ensures Inv(PutAll(s, x, id, fault, saves))
  {
    var s1 := Step(s, Put(x, id));
    var s2 := Step(s1, PutStarts(fault));
    StepKeeps(s, Put(x, id));
    StepKeeps(s1, PutStarts(fault));
    StepKeeps(s2, PutSaves(saves));
    StepKeeps(Step(s2, PutSaves(saves)), PutFinishes);
  }
}
