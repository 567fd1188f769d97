/** Write-through persistence of the server's state: a handler changes the state in memory, saves
    all of it, and takes its change back if the save fails, all under one lock. Other handlers
    change volatile fields without saving, or save without caring about the result. The
    machine may stop at any point, in particular inside a save. */
module WriteThrough {
  import opened Prelude
  import opened SaveFile
  import opened Model

  datatype Ssh = Ssh(user: string, fingerprint: string, port: int)

  /** `live` stands for everything that heartbeats and probes report. */
  datatype Device = Device(
    id: Id, name: string, ip: string, key: string, token: string,
    proxyPort: int, proxyType: string, ssh: Ssh, live: int)

  datatype Data = Data(devices: seq<Device>, policies: seq<Policy>, mappings: seq<Mapping>)

  /** The part that memory and disk have to agree on. */
  function StableDevice(d: Device): Device { d.(ssh := Ssh("", "", 0), live := 0) }
  function StablePolicy(p: Policy): Policy { p.(active := "") }
  function StableMapping(m: Mapping): Mapping { m.(error := "") }

  function Stable(d: Data): Data {
    Data(seq(|d.devices|, i requires 0 <= i < |d.devices| => StableDevice(d.devices[i])),
         seq(|d.policies|, i requires 0 <= i < |d.policies| => StablePolicy(d.policies[i])),
         seq(|d.mappings|, i requires 0 <= i < |d.mappings| => StableMapping(d.mappings[i])))
  }

  // ---- what the handlers change ----

  /** The changes that are written through. */
  datatype Change =
    | Join(device: Device)
    | UpdateDevice(id: Id, name: string, proxyPort: int, proxyType: string, ssh: Ssh)
    | PutPolicy(policy: Policy)
    | PutMapping(mapping: Mapping)
    | DeleteMapping(id: Id)

  /** The changes that stay in memory until somebody saves. */
  datatype Touch =
    | SetActive(source: Id, active: Id)
    | SetError(id: Id, error: string)
    | SetLive(id: Id, live: int)
    | SetSsh(id: Id, ssh: Ssh)

  /** The index of the first device with this id, or the number of devices. */
  function FirstDevice(ds: seq<Device>, id: Id): (k: nat)
    ensures k <= |ds| && (k < |ds| ==> ds[k].id == id)
    ensures forall i :: 0 <= i < k ==> ds[i].id != id
  {
    if ds == [] then 0 else if ds[0].id == id then 0 else
      assert forall i :: 0 <= i < |ds[1..]| ==> ds[1..][i] == ds[i + 1];
      1 + FirstDevice(ds[1..], id)
  }

  function FirstMapping(ms: seq<Mapping>, id: Id): (k: nat)
    ensures k <= |ms| && (k < |ms| ==> ms[k].id == id)
    ensures forall i :: 0 <= i < k ==> ms[i].id != id
  {
    if ms == [] then 0 else if ms[0].id == id then 0 else
      assert forall i :: 0 <= i < |ms[1..]| ==> ms[1..][i] == ms[i + 1];
      1 + FirstMapping(ms[1..], id)
  }

  function Apply(d: Data, c: Change): Data {
    match c
    case Join(x) => d.(devices := d.devices + [x])
    case UpdateDevice(id, name, port, kind, ssh) =>
      var k := FirstDevice(d.devices, id);
      if k < |d.devices| then
        d.(devices := d.devices[k := d.devices[k].(name := name, proxyPort := port, proxyType := kind, ssh := ssh)])
      else d
    case PutPolicy(p) => d.(policies := WithPolicy(d.policies, p))
    case PutMapping(m) => d.(mappings := d.mappings + [m])
    case DeleteMapping(id) =>
      var k := FirstMapping(d.mappings, id);
      if k < |d.mappings| then d.(mappings := d.mappings[..k] + d.mappings[k + 1..]) else d
  }

  /** The handlers refuse to change what does not exist. */
  predicate Known(d: Data, c: Change) {
    match c
    case UpdateDevice(id, _, _, _, _) => FirstDevice(d.devices, id) < |d.devices|
    case DeleteMapping(id) => FirstMapping(d.mappings, id) < |d.mappings|
    case _ => true
  }

  /** What a handler does after a failed save, with what it kept of the state before: nothing,
      the one device, or a copy of the list. */
  function Undo(d: Data, c: Change, was: Data): Data {
    match c
    case Join(_) => if d.devices == [] then d else d.(devices := d.devices[..|d.devices| - 1])
    case UpdateDevice(id, _, _, _, _) =>
      var k := FirstDevice(was.devices, id);
      if k < |was.devices| && k < |d.devices| then d.(devices := d.devices[k := was.devices[k]]) else d
    case PutPolicy(_) => d.(policies := was.policies)
    case PutMapping(_) => if d.mappings == [] then d else d.(mappings := d.mappings[..|d.mappings| - 1])
    case DeleteMapping(_) => d.(mappings := was.mappings)
  }

  /** Undoing gives back exactly the state before the change, volatile fields included. */
  lemma UndoIsExact(d: Data, c: Change)
    ensures Undo(Apply(d, c), c, d) == d
  {
    if c.UpdateDevice? {
      var k := FirstDevice(d.devices, c.id);
      if k < |d.devices| { assert Apply(d, c).devices[k := d.devices[k]] == d.devices; }
    }
  }

  function TouchStep(d: Data, t: Touch): Data {
    match t
    case SetActive(source, active) =>
      d.(policies := seq(|d.policies|, i requires 0 <= i < |d.policies| =>
        if d.policies[i].source == source then d.policies[i].(active := active) else d.policies[i]))
    case SetError(id, error) =>
      d.(mappings := seq(|d.mappings|, i requires 0 <= i < |d.mappings| =>
        if d.mappings[i].id == id then d.mappings[i].(error := error) else d.mappings[i]))
    case SetLive(id, live) =>
      var k := FirstDevice(d.devices, id);
      if k < |d.devices| then d.(devices := d.devices[k := d.devices[k].(live := live)]) else d
    case SetSsh(id, ssh) =>
      var k := FirstDevice(d.devices, id);
      if k < |d.devices| then d.(devices := d.devices[k := d.devices[k].(ssh := ssh)]) else d
  }

  /** Touches are invisible in the stable part. */
  lemma TouchIsInvisible(d: Data, t: Touch)
    ensures Stable(TouchStep(d, t)) == Stable(d)
  {
    var e := TouchStep(d, t);
    assert Stable(e).devices == Stable(d).devices;
    assert Stable(e).policies == Stable(d).policies;
    assert Stable(e).mappings == Stable(d).mappings;
  }

  // ---- what the changes mean, entry by entry ----

  ghost predicate FirstWith(ds: seq<Device>, id: Id, i: nat) {
    i < |ds| && ds[i].id == id && forall j :: 0 <= j < i ==> ds[j].id != id
  }

  ghost predicate FirstMappingWith(ms: seq<Mapping>, id: Id, i: nat) {
    i < |ms| && ms[i].id == id && forall j :: 0 <= j < i ==> ms[j].id != id
  }

  /** The first device of this id has the new settings and is otherwise what it was, and the other
      devices are what they were. */
  ghost predicate Updated(
    was: seq<Device>, now: seq<Device>, id: Id, name: string, port: int, kind: string, ssh: Ssh)
  {
    && |now| == |was|
    && forall i :: 0 <= i < |was| ==>
         now[i] == if FirstWith(was, id, i)
                   then Device(id, name, was[i].ip, was[i].key, was[i].token, port, kind, ssh, was[i].live)
                   else was[i]
  }

  /** The list without its first mapping of this id, in the same order. */
  ghost predicate FirstRemoved(was: seq<Mapping>, now: seq<Mapping>, id: Id) {
    && (forall i: nat :: FirstMappingWith(was, id, i) ==> now == was[..i] + was[i + 1..])
    && ((forall i :: 0 <= i < |was| ==> was[i].id != id) ==> now == was)
  }

  /** A device update, a new policy and a deleted mapping each do just that, and a joining device and
      a new mapping come last; the other lists stay. */
  lemma ChangeMeans(d: Data, c: Change)
    ensures var e := Apply(d, c);
      && (c.Join? ==> e == Data(d.devices + [c.device], d.policies, d.mappings))
      && (c.UpdateDevice? ==>
           && Updated(d.devices, e.devices, c.id, c.name, c.proxyPort, c.proxyType, c.ssh)
           && e.policies == d.policies && e.mappings == d.mappings)
      && (c.PutPolicy? ==>
           PolicySet(d.policies, e.policies, c.policy) && e.devices == d.devices && e.mappings == d.mappings)
      && (c.PutMapping? ==> e == Data(d.devices, d.policies, d.mappings + [c.mapping]))
      && (c.DeleteMapping? ==>
           FirstRemoved(d.mappings, e.mappings, c.id) && e.devices == d.devices && e.policies == d.policies)
  {
    match c
    case UpdateDevice(id, _, _, _, _) => OneFirstDevice(d.devices, id);
    case DeleteMapping(id) => OneFirstMapping(d.mappings, id);
    case PutPolicy(p) => PolicyIsSet(d.policies, p);
    case _ =>
  }

  lemma OneFirstDevice(ds: seq<Device>, id: Id)
    ensures forall i: nat :: FirstWith(ds, id, i) <==> i < |ds| && i == FirstDevice(ds, id)
  {
  }

  lemma OneFirstMapping(ms: seq<Mapping>, id: Id)
    ensures forall i: nat :: FirstMappingWith(ms, id, i) <==> i < |ms| && i == FirstMapping(ms, id)
  {
  }

  /** Entry by entry and field by field: everything but SSH user, fingerprint and port, what heartbeats
      report, Active and mapping errors. */
  ghost predicate SameEntries(d: Data, e: Data) {
    && |d.devices| == |e.devices| && |d.policies| == |e.policies| && |d.mappings| == |e.mappings|
    && (forall i :: 0 <= i < |d.devices| ==>
         e.devices[i] == d.devices[i].(ssh := e.devices[i].ssh, live := e.devices[i].live))
    && (forall i :: 0 <= i < |d.policies| ==> e.policies[i] == d.policies[i].(active := e.policies[i].active))
    && (forall i :: 0 <= i < |d.mappings| ==> e.mappings[i] == d.mappings[i].(error := e.mappings[i].error))
  }

  lemma StableMeans(d: Data, e: Data)
    ensures Stable(d) == Stable(e) <==> SameEntries(d, e)
  {
    var x, y := Stable(d), Stable(e);
    if x == y {
      forall i | 0 <= i < |d.devices| ensures StableDevice(d.devices[i]) == StableDevice(e.devices[i]) {
        assert x.devices[i] == y.devices[i];
      }
      forall i | 0 <= i < |d.policies| ensures StablePolicy(d.policies[i]) == StablePolicy(e.policies[i]) {
        assert x.policies[i] == y.policies[i];
      }
      forall i | 0 <= i < |d.mappings| ensures StableMapping(d.mappings[i]) == StableMapping(e.mappings[i]) {
        assert x.mappings[i] == y.mappings[i];
      }
    }
    if SameEntries(d, e) {
      assert x.devices == y.devices && x.policies == y.policies && x.mappings == y.mappings;
    }
  }

  /** The volatile updates: which entries they write, and that nothing else changes. */
  lemma TouchMeans(d: Data, t: Touch)
    ensures var e := TouchStep(d, t);
      && |e.devices| == |d.devices| && |e.policies| == |d.policies| && |e.mappings| == |d.mappings|
      && (forall i :: 0 <= i < |d.policies| ==>
           e.policies[i] == if t.SetActive? && d.policies[i].source == t.source
                            then d.policies[i].(active := t.active)
                            else d.policies[i])
      && (forall i :: 0 <= i < |d.mappings| ==>
           e.mappings[i] == if t.SetError? && d.mappings[i].id == t.id
                            then d.mappings[i].(error := t.error)
                            else d.mappings[i])
      && (forall i :: 0 <= i < |d.devices| ==>
           e.devices[i] == if t.SetLive? && FirstWith(d.devices, t.id, i)
                           then d.devices[i].(live := t.live)
                           else if t.SetSsh? && FirstWith(d.devices, t.id, i)
                           then d.devices[i].(ssh := t.ssh)
                           else d.devices[i])
  {
    if t.SetLive? || t.SetSsh? { OneFirstDevice(d.devices, t.id); }
  }

  // ---- changes on the stable part ----

  lemma FirstDeviceStable(d: Data, id: Id)
    ensures FirstDevice(Stable(d).devices, id) == FirstDevice(d.devices, id)
  {
    var ds, es := d.devices, Stable(d).devices;
    var k, j := FirstDevice(ds, id), FirstDevice(es, id);
    forall i | 0 <= i < |ds| ensures es[i].id == ds[i].id { }
  }

  lemma FirstMappingStable(d: Data, id: Id)
    ensures FirstMapping(Stable(d).mappings, id) == FirstMapping(d.mappings, id)
  {
    var ms, es := d.mappings, Stable(d).mappings;
    var k, j := FirstMapping(ms, id), FirstMapping(es, id);
    forall i | 0 <= i < |ms| ensures es[i].id == ms[i].id { }
  }

  lemma PutPolicyStable(d: Data, p: Policy)
    ensures Stable(Apply(d, PutPolicy(p))).policies == Stable(Apply(Stable(d), PutPolicy(p))).policies
  {
    var e := Stable(d);
    forall i | 0 <= i < |d.policies| ensures e.policies[i].source == d.policies[i].source { }
    assert HasPolicy(e.policies, p.source) <==> HasPolicy(d.policies, p.source) by {
      if HasPolicy(d.policies, p.source) {
        var i :| 0 <= i < |d.policies| && d.policies[i].source == p.source;
        assert e.policies[i].source == p.source;
      }
    }
  }

  lemma StableTwice(d: Data)
    ensures Stable(Stable(d)) == Stable(d)
  {
    var e := Stable(d);
    assert Stable(e).devices == e.devices && Stable(e).policies == e.policies && Stable(e).mappings == e.mappings;
  }

  lemma DevicesStable(d: Data, c: Change)
    requires c.Join? || c.UpdateDevice?
    ensures Stable(Apply(d, c)).devices == Stable(Apply(Stable(d), c)).devices
  {
    if c.UpdateDevice? { FirstDeviceStable(d, c.id); }
  }

  /** es is the stable form of ms, and stays it when both lose the entry at k. */
  lemma CutStable(ms: seq<Mapping>, es: seq<Mapping>, k: nat)
    requires |es| == |ms| && k < |ms| && forall i :: 0 <= i < |ms| ==> es[i] == StableMapping(ms[i])
    ensures var a, b := ms[..k] + ms[k + 1..], es[..k] + es[k + 1..];
      |a| == |b| && forall i :: 0 <= i < |a| ==> b[i] == StableMapping(a[i])
  {
    var a, b := ms[..k] + ms[k + 1..], es[..k] + es[k + 1..];
    forall i | 0 <= i < |a| ensures b[i] == StableMapping(a[i]) {
      assert a[i] == ms[if i < k then i else i + 1] && b[i] == es[if i < k then i else i + 1];
    }
  }

  lemma DeleteStable(d: Data, id: Id)
    ensures Stable(Apply(d, DeleteMapping(id))).mappings == Stable(Apply(Stable(d), DeleteMapping(id))).mappings
  {
    var k := FirstMapping(d.mappings, id);
    FirstMappingStable(d, id);
    if k < |d.mappings| { CutStable(d.mappings, Stable(d).mappings, k); }
  }

  lemma PutStable(d: Data, m: Mapping)
    ensures Stable(Apply(d, PutMapping(m))).mappings == Stable(Apply(Stable(d), PutMapping(m))).mappings
  {
  }

  /** What a change does to the stable part depends on the stable part only. */
  lemma StableApply(d: Data, c: Change)
    ensures Stable(Apply(d, c)) == Stable(Apply(Stable(d), c))
  {
    StableTwice(d);
    match c
    case Join(_) | UpdateDevice(_, _, _, _, _) => DevicesStable(d, c);
    case PutPolicy(p) => PutPolicyStable(d, p);
    case PutMapping(m) => PutStable(d, m);
    case DeleteMapping(id) => DeleteStable(d, id);
  }

  // ---- the server ----

  /** Who holds the lock. A save knows the state before the change, what was on disk, and how
      many changes had taken effect. */
  datatype Holder =
    | Free
    | Saving(change: Option<Change>, before: Data, onDisk: Data, base: nat, stage: Stage)
    | Down   // stopped

  /** `log` is the changes whose save has renamed the file, in order, and `marks` how many of
      them each of the disk's earlier files had (neither is in the code). */
  datatype State = State(mem: Data, disk: Disk<Data>, op: Holder, log: seq<Change>, marks: seq<nat>)

  datatype Event =
    | Begin(c: Change)                       // a handler changes memory and calls Save
    | SaveOnly                               // a handler saves and does not look at the result
    | SaveStep(ok: bool, pick: Name)
    | Release                                // after Save has returned: acknowledge or undo
    | Touches(t: Touch)
    | Flushes(n: nat)                        // the system writes the oldest n renames to the disk
    | Kill                                   // the server stops, the machine does not
    | Crash(after: Disk<Data>, k: nat)       // the machine stops, all but the first k renames are lost
    | Restart

  ghost function Held(d: Disk<Data>): Data {
    if Entry(d.files).Some? && Entry(d.files).value.content.Of? then Entry(d.files).value.content.value
    else Data([], [], [])
  }

  ghost function SaveNext(s: State, ok: bool, pick: Name): State
    requires s.op.Saving?
  {
    var r := Next(s.disk, s.op.stage, s.mem, ok, pick);
    var t := s.(disk := r.0, op := s.op.(stage := r.1));
    if Committed(r.1) && !Committed(s.op.stage) then
      t.(marks := s.marks + [|s.log|], log := if s.op.change.Some? then s.log + [s.op.change.value] else s.log)
    else t
  }

  ghost function ReleaseStep(s: State): State
    requires s.op.Saving? && s.op.stage.Returned?
  {
    var t := s.(op := Free);
    if s.op.change.Some? && !s.op.stage.ok then t.(mem := Undo(s.mem, s.op.change.value, s.op.before)) else t
  }

  /** How many changes of the log remain if only the first k renames are on disk. */
  function MarkAt(s: State, k: nat): nat { if k < |s.marks| then s.marks[k] else |s.log| }

  ghost function CrashStep(s: State, after: Disk<Data>, k: nat): State
    requires MarkAt(s, k) <= |s.log|
  {
    s.(disk := after, op := Down, log := s.log[..MarkAt(s, k)], marks := [])
  }

  ghost function Step(s: State, e: Event): State {
    match e
    case Begin(c) =>
      if s.op.Free? && Known(s.mem, c) then
        s.(mem := Apply(s.mem, c), op := Saving(Some(c), s.mem, Held(s.disk), |s.log|, Encoding))
      else s
    case SaveOnly =>
      if s.op.Free? then s.(op := Saving(None, s.mem, Held(s.disk), |s.log|, Encoding)) else s
    case SaveStep(ok, pick) => if s.op.Saving? then SaveNext(s, ok, pick) else s
    case Release => if s.op.Saving? && s.op.stage.Returned? then ReleaseStep(s) else s
    case Touches(t) => if s.op.Free? then s.(mem := TouchStep(s.mem, t)) else s
    case Flushes(n) =>
      if n <= |s.marks| && n <= |s.disk.earlier| then
        s.(disk := s.disk.(earlier := s.disk.earlier[n..]), marks := s.marks[n..])
      else s
    case Kill => s.(op := Down)
    case Crash(after, k) =>
      if Survives(s.disk, after, k) && MarkAt(s, k) <= |s.log| then CrashStep(s, after, k) else s
    case Restart =>
      if s.op.Down? && Entry(s.disk.files).Some? && Entry(s.disk.files).value.content.Of? then
        s.(mem := Held(s.disk), op := Free)
      else s
  }

  ghost function ExecFrom(s: State, events: seq<Event>): State
    decreases |events|
  {
    if events == [] then s else ExecFrom(Step(s, events[0]), events[1..])
  }

  /** A server that has loaded its file. */
  function Loaded(d: Data, left: map<Name, File<Data>>): State {
    State(d, Disk(left[PATH := File(Of(d), true)], []), Free, [], [])
  }

  // ---- memory, disk and the log ----

  /** The stable part that a list of changes makes of d. */
  function Replay(d: Data, log: seq<Change>): Data {
    if log == [] then Stable(d) else Stable(Apply(Replay(d, log[..|log| - 1]), log[|log| - 1]))
  }

  /** A whole, synced file whose stable part is what these changes make of d. */
  ghost predicate Holds(d: Data, e: Option<File<Data>>, log: seq<Change>) {
    e.Some? && e.value.synced && e.value.content.Of? && Stable(e.value.content.value) == Replay(d, log)
  }

  /** Every file that a crash may bring back holds a prefix of the log, and the present one all of it. */
  ghost predicate Recorded(d: Data, s: State) {
    && |s.marks| == |s.disk.earlier|
    && (forall i :: 0 <= i < |s.marks| ==> s.marks[i] <= |s.log| && Holds(d, s.disk.earlier[i], s.log[..s.marks[i]]))
    && (forall i, j :: 0 <= i < j < |s.marks| ==> s.marks[i] <= s.marks[j])
    && Holds(d, Entry(s.disk.files), s.log)
  }

  ghost predicate HolderOk(d: Data, s: State) {
    match s.op
    case Free => Stable(s.mem) == Replay(d, s.log)
    case Saving(change, before, onDisk, base, stage) =>
      && Progress(s.disk, stage, Some(onDisk), s.mem)
      && s.mem == (if change.Some? then Apply(before, change.value) else before)
      && base <= |s.log| && Stable(onDisk) == Stable(before) == Replay(d, s.log[..base])
      && s.log[base..] == (if Committed(stage) && change.Some? then [change.value] else [])
    case Down => true
  }

  ghost predicate Inv(d: Data, s: State) { Recorded(d, s) && HolderOk(d, s) }

  /** What the save is about to write is what the log with the change says. */
  lemma SavedIsReplay(d: Data, s: State)
    requires Inv(d, s) && s.op.Saving? && !Committed(s.op.stage)
    ensures Stable(s.mem) == Replay(d, if s.op.change.Some? then s.log + [s.op.change.value] else s.log)
  {
    assert s.log[..s.op.base] == s.log;
    if s.op.change.Some? {
      StableApply(s.op.before, s.op.change.value);
    }
  }

  lemma CommitRecorded(d: Data, s: State, t: State, log: seq<Change>)
    requires Recorded(d, s) && |s.log| <= |log| && log[..|s.log|] == s.log
    requires t.log == log && t.marks == s.marks + [|s.log|]
    requires t.disk.earlier == s.disk.earlier + [Entry(s.disk.files)] && Holds(d, Entry(t.disk.files), log)
    ensures Recorded(d, t)
  {
    forall i | 0 <= i < |t.marks| ensures Holds(d, t.disk.earlier[i], t.log[..t.marks[i]]) {
      if i < |s.marks| { assert log[..s.marks[i]] == s.log[..s.marks[i]]; }
    }
  }

  lemma SaveStepKeeps(d: Data, s: State, ok: bool, pick: Name)
    requires Inv(d, s) && s.op.Saving?
    ensures Inv(d, SaveNext(s, ok, pick))
  {
    var t := SaveNext(s, ok, pick);
    NextKeeps(s.disk, s.op.stage, Some(s.op.onDisk), s.mem, ok, pick);
    if Committed(t.op.stage) && !Committed(s.op.stage) {
      SavedIsReplay(d, s);
      assert s.log[..s.op.base] == s.log;
      assert t.log[..|s.log|] == s.log;
      CommitRecorded(d, s, t, t.log);
    }
  }

  lemma ReleaseKeeps(d: Data, s: State)
    requires Inv(d, s) && s.op.Saving? && s.op.stage.Returned?
    ensures Inv(d, ReleaseStep(s))
  {
    if Committed(s.op.stage) {
      assert Stable(s.mem) == Stable(Held(s.disk));
    } else {
      assert s.log[..s.op.base] == s.log;
      if s.op.change.Some? { UndoIsExact(s.op.before, s.op.change.value); }
    }
  }

  lemma CrashKeeps(d: Data, s: State, after: Disk<Data>, k: nat)
    requires Inv(d, s) && Survives(s.disk, after, k)
    ensures MarkAt(s, k) <= |s.log| && Inv(d, CrashStep(s, after, k))
  {
    if k < |s.marks| {
      assert Holds(d, s.disk.earlier[k], s.log[..s.marks[k]]);
      assert Entries(s.disk)[k] == s.disk.earlier[k];
    } else {
      assert s.log[..|s.log|] == s.log;
    }
  }

  lemma BeginKeeps(d: Data, s: State, e: Event)
    requires Inv(d, s) && (e.Begin? || e.SaveOnly?)
    ensures Inv(d, Step(s, e))
  {
    assert s.log[..|s.log|] == s.log;
  }

  lemma FlushKeeps(d: Data, s: State, n: nat)
    requires Inv(d, s)
    ensures Inv(d, Step(s, Flushes(n)))
  {
  }

  lemma StepKeeps(d: Data, s: State, e: Event)
    requires Inv(d, s)
    ensures Inv(d, Step(s, e))
  {
    match e {
      case Begin(_) => BeginKeeps(d, s, e);
      case SaveOnly => BeginKeeps(d, s, e);
      case SaveStep(ok, pick) => if s.op.Saving? { SaveStepKeeps(d, s, ok, pick); }
      case Release => if s.op.Saving? && s.op.stage.Returned? { ReleaseKeeps(d, s); }
      case Touches(t) => TouchIsInvisible(s.mem, t);
      case Flushes(n) => FlushKeeps(d, s, n);
      case Crash(after, k) => if Survives(s.disk, after, k) { CrashKeeps(d, s, after, k); }
      case _ =>
    }
  }

  lemma {:induction false} RunKeeps(d: Data, s: State, events: seq<Event>)
    requires Inv(d, s)
    ensures Inv(d, ExecFrom(s, events))
    decreases |events|
  {
    if events != [] {
      StepKeeps(d, s, events[0]);
      RunKeeps(d, Step(s, events[0]), events[1..]);
    }
  }

  // ---- every run ----

  /** In every run, with any pattern of failing saves, stops and crashes at any points: whenever
      the lock is free, the file is whole, and its stable part and that of memory are what the
      changes of the log make of the initial state. */
  lemma EveryRunAgrees(d: Data, left: map<Name, File<Data>>, events: seq<Event>)
    requires ExecFrom(Loaded(d, left), events).op.Free?
    ensures var s := ExecFrom(Loaded(d, left), events);
      && Entry(s.disk.files) == Some(File(Of(Held(s.disk)), true))
      && Stable(s.mem) == Stable(Held(s.disk)) == Replay(d, s.log) && SameEntries(s.mem, Held(s.disk))
  {
    RunKeeps(d, Loaded(d, left), events);
    StableMeans(ExecFrom(Loaded(d, left), events).mem, Held(ExecFrom(Loaded(d, left), events).disk));
  }

  /** A handler that reports success has its change at the end of the log, and one that reports
      failure has left log and memory exactly as they were. */
  lemma AcknowledgedMeansLogged(d: Data, s: State)
    requires Inv(d, s) && s.op.Saving? && s.op.change.Some? && s.op.stage.Returned?
    ensures var t, before := Step(s, Release), s.log[..s.op.base];
      if s.op.stage.ok then t.log == before + [s.op.change.value] && t.mem == Apply(s.op.before, s.op.change.value)
      else t.log == before && t.mem == s.op.before
  {
    UndoIsExact(s.op.before, s.op.change.value);
    assert s.log == s.log[..s.op.base] + s.log[s.op.base..];
  }

  // ---- what survives ----

  /** The first n changes of s are in effect in t. */
  ghost predicate Kept(s: State, t: State, n: nat) { n <= |s.log| && n <= |t.log| && t.log[..n] == s.log[..n] }

  /** The changes that are on disk for good, because the renames up to them were flushed. */
  function Settled(s: State): nat { MarkAt(s, 0) }

  lemma FewerKept(s: State, t: State, m: nat, n: nat)
    requires Kept(s, t, n) && m <= n
    ensures Kept(s, t, m)
  {
    assert t.log[..m] == t.log[..n][..m] && s.log[..m] == s.log[..n][..m];
  }

  lemma CrashKeepsSettled(d: Data, s: State, after: Disk<Data>, k: nat)
    requires Inv(d, s) && Survives(s.disk, after, k)
    ensures var t := Step(s, Crash(after, k)); Kept(s, t, Settled(s)) && Settled(s) <= Settled(t)
  {
    var n := MarkAt(s, k);
    assert Settled(s) <= n <= |s.log|;
    assert s.log[..n][..Settled(s)] == s.log[..Settled(s)];
  }

  lemma LosslessStep(d: Data, s: State, e: Event)
    requires Inv(d, s) && (e.Crash? ==> e.k >= |s.marks|)
    ensures Kept(s, Step(s, e), |s.log|)
  {
  }

  lemma StepKeepsSettled(d: Data, s: State, e: Event)
    requires Inv(d, s)
    ensures Kept(s, Step(s, e), Settled(s)) && Settled(s) <= Settled(Step(s, e))
  {
    if e.Crash? {
      if Survives(s.disk, e.after, e.k) { CrashKeepsSettled(d, s, e.after, e.k); }
    } else {
      LosslessStep(d, s, e);
      FewerKept(s, Step(s, e), Settled(s), |s.log|);
    }
  }

  lemma {:induction false} SettledStays(d: Data, s: State, events: seq<Event>)
    requires Inv(d, s)
    ensures Kept(s, ExecFrom(s, events), Settled(s)) && Settled(s) <= Settled(ExecFrom(s, events))
    decreases |events|
  {
    if events != [] {
      var t := Step(s, events[0]);
      StepKeepsSettled(d, s, events[0]);
      StepKeeps(d, s, events[0]);
      SettledStays(d, t, events[1..]);
      var u := ExecFrom(t, events[1..]);
      FewerKept(t, u, Settled(s), Settled(t));
    }
  }

  /** The crash that loses every rename not yet flushed. */
  lemma WorstCrash(d: Data, s: State) returns (after: Disk<Data>)
    requires Inv(d, s)
    ensures Survives(s.disk, after, 0) && Step(s, Crash(after, 0)).log == s.log[..Settled(s)]
  {
    var e := Entries(s.disk)[0];
    if |s.marks| > 0 { assert Holds(d, s.disk.earlier[0], s.log[..s.marks[0]]); }
    after := Disk(map[PATH := e.value], []);
  }

  ghost predicate SafeForever(s: State, n: nat) { forall events :: Kept(s, ExecFrom(s, events), n) }

  /** The first n changes survive whatever may happen later if and only if they are settled:
      those beyond can be lost by a crash, although they were acknowledged. */
  lemma SettledMeansSafe(d: Data, s: State, n: nat)
    requires Inv(d, s) && n <= |s.log|
    ensures SafeForever(s, n) <==> n <= Settled(s)
  {
    if n <= Settled(s) {
      forall events ensures Kept(s, ExecFrom(s, events), n) {
        SettledStays(d, s, events);
        FewerKept(s, ExecFrom(s, events), n, Settled(s));
      }
    } else {
      var after := WorstCrash(d, s);
      var e := Crash(after, 0);
      OneEvent(s, e);
      assert !Kept(s, ExecFrom(s, [e]), n);
    }
  }

  lemma OneEvent(s: State, e: Event)
    ensures ExecFrom(s, [e]) == Step(s, e)
  {
    assert [e][1..] == [];
    assert ExecFrom(Step(s, e), []) == Step(s, e);
  }

  /** No crash of these events loses a rename. */
  ghost predicate Lossless(s: State, events: seq<Event>)
    decreases |events|
  {
    events == [] ||
    ((events[0].Crash? ==> events[0].k >= |s.marks|) && Lossless(Step(s, events[0]), events[1..]))
  }

  lemma {:induction false} LosslessKeeps(d: Data, s: State, events: seq<Event>)
    requires Inv(d, s) && Lossless(s, events)
    ensures Kept(s, ExecFrom(s, events), |s.log|)
    decreases |events|
  {
    if events != [] {
      var t := Step(s, events[0]);
      var u := ExecFrom(t, events[1..]);
      StepKeeps(d, s, events[0]);
      LosslessStep(d, s, events[0]);
      LosslessKeeps(d, t, events[1..]);
      FewerKept(t, u, |s.log|, |t.log|);
    }
  }

  lemma {:induction false} ExecConcat(s: State, f: seq<Event>, g: seq<Event>)
    ensures ExecFrom(s, f + g) == ExecFrom(ExecFrom(s, f), g)
    decreases |f|
  {
    if f == [] {
      assert f + g == g;
    } else {
      assert (f + g)[0] == f[0] && (f + g)[1..] == f[1..] + g;
      ExecConcat(Step(s, f[0]), f[1..], g);
    }
  }

  lemma KeptFrom(d: Data, s: State, after: seq<Event>, n: nat)
    requires Inv(d, s) && (n <= Settled(s) || (n <= |s.log| && Lossless(s, after)))
    ensures Kept(s, ExecFrom(s, after), n)
  {
    if n <= Settled(s) {
      SettledStays(d, s, after);
      FewerKept(s, ExecFrom(s, after), n, Settled(s));
    } else {
      LosslessKeeps(d, s, after);
      FewerKept(s, ExecFrom(s, after), n, |s.log|);
    }
  }

  /** From end to end: the first n changes made by the events before, if they were settled
      then or no later crash loses a rename, are still in effect after any later events, in
      memory and on disk. */
  lemma AcknowledgedSurvives(
    d: Data, left: map<Name, File<Data>>, before: seq<Event>, after: seq<Event>, n: nat)
    requires var s := ExecFrom(Loaded(d, left), before);
      n <= Settled(s) || (n <= |s.log| && Lossless(s, after))
    requires ExecFrom(Loaded(d, left), before + after).op.Free?
    ensures var s, t := ExecFrom(Loaded(d, left), before), ExecFrom(Loaded(d, left), before + after);
      && Kept(s, t, n)
      && Stable(t.mem) == Stable(Held(t.disk)) == Replay(d, t.log) && SameEntries(t.mem, Held(t.disk))
  {
    ExecConcat(Loaded(d, left), before, after);
    RunKeeps(d, Loaded(d, left), before);
    KeptFrom(d, ExecFrom(Loaded(d, left), before), after, n);
    EveryRunAgrees(d, left, before + after);
  }

  /** After a crash at any point the server loads its file again and finds the changes up to the
      last rename that is not lost, so all of them if none is. */
  lemma RestartFindsTheLog(
    d: Data, left: map<Name, File<Data>>, events: seq<Event>, after: Disk<Data>, k: nat)
    requires Survives(ExecFrom(Loaded(d, left), events).disk, after, k)
    ensures var s := ExecFrom(Loaded(d, left), events);
      var t := Step(Step(s, Crash(after, k)), Restart);
      && MarkAt(s, k) <= |s.log| && (k == |s.disk.earlier| ==> MarkAt(s, k) == |s.log|)
      && t.op.Free? && t.log == s.log[..MarkAt(s, k)] && Stable(t.mem) == Replay(d, t.log)
  {
    RunKeeps(d, Loaded(d, left), events);
    var s := ExecFrom(Loaded(d, left), events);
    CrashKeeps(d, s, after, k);
    StepKeeps(d, Step(s, Crash(after, k)), Restart);
  }

  // ---- a change that is lost ----

  /** A save that has come to this stage without a failure. */
  ghost predicate Smooth(s: State, pick: Name) {
    && s.op.Saving? && pick != PATH
    && (s.op.stage.Encoding? || s.op.stage.MakingDir? || s.op.stage.CreatingTemp? ==> pick !in s.disk.files)
    && (Temp(s.op.stage).Some? ==> Temp(s.op.stage).value in s.disk.files)
    && !s.op.stage.Removing? && !s.op.stage.Returned?
  }

  /** The rest of a save in which nothing fails. */
  lemma {:induction false} SmoothSave(s: State, pick: Name) returns (events: seq<Event>)
    requires Smooth(s, pick)
    ensures var t := ExecFrom(s, events);
      && t.op == s.op.(stage := Returned(true)) && t.mem == s.mem && t.marks == s.marks + [|s.log|]
      && t.log == if s.op.change.Some? then s.log + [s.op.change.value] else s.log
    decreases StepsLeft(s.op.stage)
  {
    var e := SaveStep(true, pick);
    var t := Step(s, e);
    var rest;
    if s.op.stage.Renaming? {
      rest := [e];
      OneEvent(t, e);
    } else {
      rest := SmoothSave(t, pick);
    }
    events := [e] + rest;
    FirstEvent(s, e, rest);
  }

  lemma FirstEvent(s: State, e: Event, rest: seq<Event>)
    ensures ExecFrom(s, [e] + rest) == ExecFrom(Step(s, e), rest)
  {
    assert ([e] + rest)[1..] == rest;
  }

  /** What is updated or deleted exists. */
  ghost predicate Concerns(d: Data, c: Change) {
    && (c.UpdateDevice? ==> exists i :: 0 <= i < |d.devices| && d.devices[i].id == c.id)
    && (c.DeleteMapping? ==> exists i :: 0 <= i < |d.mappings| && d.mappings[i].id == c.id)
  }

  lemma ConcernsMeansKnown(d: Data, c: Change)
    ensures Concerns(d, c) <==> Known(d, c)
  {
  }

  /** The events of a change whose save does not fail. */
  lemma SmoothChange(s: State, c: Change, pick: Name) returns (events: seq<Event>)
    requires s.op.Free? && Concerns(s.mem, c) && pick !in s.disk.files && pick != PATH
    ensures var u := ExecFrom(s, events);
      && u.op == Saving(Some(c), s.mem, Held(s.disk), |s.log|, Returned(true))
      && u.mem == Apply(s.mem, c) && u.log == s.log + [c] && u.marks == s.marks + [|s.log|]
  {
    ConcernsMeansKnown(s.mem, c);
    var t := Step(s, Begin(c));
    var save := SmoothSave(t, pick);
    events := [Begin(c)] + save;
    FirstEvent(s, Begin(c), save);
  }

  /** From any reachable state with a free lock, a change to something that exists, saved without
      a failure, is acknowledged: it is in memory, the file holds the whole memory, and it is the
      last of the log. */
  lemma ChangeIsSaved(d: Data, left: map<Name, File<Data>>, before: seq<Event>, c: Change, pick: Name)
    returns (events: seq<Event>)
    requires var s := ExecFrom(Loaded(d, left), before);
      s.op.Free? && Concerns(s.mem, c) && pick !in s.disk.files && pick != PATH
    ensures var s, t := ExecFrom(Loaded(d, left), before), ExecFrom(ExecFrom(Loaded(d, left), before), events);
      && t.op.Free? && t.mem == Held(t.disk) == Apply(s.mem, c)
      && t.log == s.log + [c] && t.marks == s.marks + [|s.log|]
  {
    var s := ExecFrom(Loaded(d, left), before);
    RunKeeps(d, Loaded(d, left), before);
    var change := SmoothChange(s, c, pick);
    RunKeeps(d, s, change);
    events := change + [Release];
    ExecConcat(s, change, [Release]);
    OneEvent(ExecFrom(s, change), Release);
    SavedMemory(d, ExecFrom(s, change));
  }

  lemma SavedMemory(d: Data, s: State)
    requires Inv(d, s) && s.op.Saving? && s.op.stage == Returned(true)
    ensures var t := Step(s, Release); t == s.(op := Free) && s.mem == Held(s.disk)
  {
  }

  /** A handler changes nothing that does not exist, and a volatile update is in memory at once, and only
      there. */
  lemma SmallSteps(s: State, c: Change, t: Touch)
    ensures !Concerns(s.mem, c) || !s.op.Free? ==> Step(s, Begin(c)) == s
    ensures Step(s, Touches(t)) == if s.op.Free? then s.(mem := TouchStep(s.mem, t)) else s
  {
    ConcernsMeansKnown(s.mem, c);
  }

  /** A save that nobody asks about, when nothing fails, writes the whole memory, volatile fields
      included, and adds no change. */
  lemma PlainSaveWrites(d: Data, left: map<Name, File<Data>>, before: seq<Event>, pick: Name)
    returns (events: seq<Event>)
    requires var s := ExecFrom(Loaded(d, left), before);
      s.op.Free? && pick !in s.disk.files && pick != PATH
    ensures var s, t := ExecFrom(Loaded(d, left), before), ExecFrom(ExecFrom(Loaded(d, left), before), events);
      && t.op.Free? && t.mem == Held(t.disk) == s.mem && t.log == s.log && t.marks == s.marks + [|s.log|]
  {
    var s := ExecFrom(Loaded(d, left), before);
    RunKeeps(d, Loaded(d, left), before);
    var u := Step(s, SaveOnly);
    var save := SmoothSave(u, pick);
    FirstEvent(s, SaveOnly, save);
    var events0 := [SaveOnly] + save;
    RunKeeps(d, s, events0);
    events := events0 + [Release];
    ExecConcat(s, events0, [Release]);
    OneEvent(ExecFrom(s, events0), Release);
    SavedMemory(d, ExecFrom(s, events0));
  }

  /** Once the oldest n renames are flushed, the changes up to the next one are settled; once all are,
      every change is. */
  lemma FlushSettles(d: Data, left: map<Name, File<Data>>, before: seq<Event>, n: nat)
    requires n <= |ExecFrom(Loaded(d, left), before).marks|
    ensures var s := ExecFrom(Loaded(d, left), before);
      var t := Step(s, Flushes(n));
      && t == s.(disk := t.disk, marks := s.marks[n..]) && t.disk.files == s.disk.files
      && Settled(t) == (if n < |s.marks| then s.marks[n] else |s.log|)
  {
    RunKeeps(d, Loaded(d, left), before);
  }

  /** A server that is stopped and started again has in memory what is in its file, and every change of the
      log in it; a running one is not loaded again. */
  lemma StopAndStart(d: Data, left: map<Name, File<Data>>, before: seq<Event>)
    ensures var s := ExecFrom(Loaded(d, left), before);
      && ExecFrom(s, [Kill] + [Restart]) == s.(mem := Held(s.disk), op := Free)
      && Stable(Held(s.disk)) == Replay(d, s.log)
      && (!s.op.Down? ==> Step(s, Restart) == s)
  {
    var s := ExecFrom(Loaded(d, left), before);
    RunKeeps(d, Loaded(d, left), before);
    FirstEvent(s, Kill, [Restart]);
    OneEvent(Step(s, Kill), Restart);
  }

  /** So an acknowledged change can be lost: if the machine then stops before the rename has been
      flushed, the server comes up without it. */
  lemma AcknowledgedCanBeLost(d: Data, m: Mapping) returns (events: seq<Event>, after: Disk<Data>)
    ensures var s := ExecFrom(Loaded(d, map[]), events);
      && s.op.Free? && s.log == [PutMapping(m)] && s.mem == Apply(d, PutMapping(m))
      && Survives(s.disk, after, 0)
      && Stable(Step(Step(s, Crash(after, 0)), Restart).mem) == Stable(d)
  {
    events := ChangeIsSaved(d, map[], [], PutMapping(m), 1);
    RunKeeps(d, Loaded(d, map[]), events);
    after := WorstCrash(d, ExecFrom(Loaded(d, map[]), events));
    RestartFindsTheLog(d, map[], events, after, 0);
  }
}
