/** Exit policies and the failover dialler. A dial takes a snapshot of its policy under the
    lock, tries the exits without it, and reports the result under the lock again; meanwhile
    policies may be replaced and devices may join. */
module Policy {
  import opened Prelude
  import opened Model

  type DialId = int

  const DIRECT: Id := "DIRECT"
  const MAX_EXITS := 20

  /** What a policy needs to know of a device. */
  datatype Device = Device(id: Id, proxyPort: int)

  /** How a dial ended. */
  datatype Outcome = Via(exit: Id) | Straight | StraightFailed | Blocked

  /** An attempt to connect through an exit, or directly. */
  datatype Attempt = Attempt(target: Id, ok: bool)

  datatype Phase =
    | Trying(tried: nat)           // exits tried so far
    | Reporting(outcome: Outcome)  // about to set Active
    | Finished(outcome: Outcome)

  /** One dial: its snapshot and what it has attempted. */
  datatype Dial = Dial(source: Id, exits: seq<Id>, onFailure: OnFailure, phase: Phase, log: seq<Attempt>)

  datatype State = State(devices: seq<Device>, policies: seq<Policy>, dials: map<DialId, Dial>)

  datatype Event =
    | Joins(id: Id)
    | UpdatesDevice(id: Id, proxyPort: int, saves: bool)
    | PutsPolicy(p: Policy, saves: bool)
    | StartsDial(k: DialId, source: Id)
    | Tries(k: DialId, ok: bool)    // the next exit, or the direct dial once all have failed
    | Reports(k: DialId)

  // ---- lookups ----

  predicate Exists(devices: seq<Device>, id: Id) { exists i :: 0 <= i < |devices| && devices[i].id == id }

  /** The first device with this id. */
  function Find(devices: seq<Device>, id: Id): (r: Option<Device>)
    ensures r.Some? <==> Exists(devices, id)
    ensures r.Some? ==> r.value in devices && r.value.id == id
  {
    if devices == [] then None
    else if devices[0].id == id then Some(devices[0])
    else
      assert forall i :: 0 <= i < |devices[1..]| ==> devices[1..][i] == devices[i + 1];
      Find(devices[1..], id)
  }

  /** The policy of a source: the last in the list, or one that blocks. */
  function PolicyOf(ps: seq<Policy>, source: Id): Policy {
    if ps == [] then Policy("", [], Block, "")
    else if ps[|ps| - 1].source == source then ps[|ps| - 1]
    else PolicyOf(ps[..|ps| - 1], source)
  }

  /** The exits that are devices, in order. */
  function Present(devices: seq<Device>, exits: seq<Id>): seq<Id> {
    if exits == [] then []
    else
      var last := exits[|exits| - 1];
      Present(devices, exits[..|exits| - 1]) + (if Exists(devices, last) then [last] else [])
  }

  // ---- the handlers as functions ----

  ghost predicate NoRepeats(ids: seq<Id>) { forall i, j :: 0 <= i < j < |ids| ==> ids[i] != ids[j] }

  ghost predicate Usable(devices: seq<Device>, id: Id) { Exists(devices, id) && Find(devices, id).value.proxyPort != 0 }

  /** What the handler checks of a new policy: at most 20 exits, all different devices with a proxy. */
  ghost predicate Acceptable(devices: seq<Device>, p: Policy) {
    && |p.exits| <= MAX_EXITS && Exists(devices, p.source) && NoRepeats(p.exits)
    && forall i :: 0 <= i < |p.exits| ==> Usable(devices, p.exits[i])
  }

  function Activated(ps: seq<Policy>, source: Id, active: Id): seq<Policy> {
    seq(|ps|, i requires 0 <= i < |ps| => if ps[i].source == source then ps[i].(active := active) else ps[i])
  }

  function ActiveOf(o: Outcome): Option<Id> {
    match o
    case Via(exit) => Some(exit)
    case Straight => Some(DIRECT)
    case StraightFailed => None      // the failed direct dial leaves Active as it was
    case Blocked => Some("")
  }

  /** The next move of a dial, whose connection attempt, if it makes one, ends as ok says. */
  function Try(d: Dial, ok: bool): Dial
    requires d.phase.Trying?
  {
    var n := d.phase.tried;
    if n < |d.exits| then
      var t := d.(log := d.log + [Attempt(d.exits[n], ok)]);
      if ok then t.(phase := Reporting(Via(d.exits[n]))) else t.(phase := Trying(n + 1))
    else if d.onFailure.Direct? then
      d.(log := d.log + [Attempt(DIRECT, ok)], phase := Reporting(if ok then Straight else StraightFailed))
    else d.(phase := Reporting(Blocked))
  }

  ghost function Step(s: State, e: Event): State {
    match e
    case Joins(id) =>
      if Exists(s.devices, id) || id == "" || id == DIRECT then s
      else s.(devices := s.devices + [Device(id, 0)])
    case UpdatesDevice(id, port, saves) =>
      if saves then s.(devices := seq(|s.devices|, i requires 0 <= i < |s.devices| =>
        if s.devices[i].id == id then s.devices[i].(proxyPort := port) else s.devices[i]))
      else s
    case PutsPolicy(p, saves) =>
      if Acceptable(s.devices, p) && saves then s.(policies := WithPolicy(s.policies, p.(active := ""))) else s
    case StartsDial(k, source) =>
      if k in s.dials then s
      else
        var p := PolicyOf(s.policies, source);
        s.(dials := s.dials[k := Dial(source, Present(s.devices, p.exits), p.onFailure, Trying(0), [])])
    case Tries(k, ok) =>
      if k in s.dials && s.dials[k].phase.Trying? then s.(dials := s.dials[k := Try(s.dials[k], ok)]) else s
    case Reports(k) =>
      if k in s.dials && s.dials[k].phase.Reporting? then
        var o, active := s.dials[k].phase.outcome, ActiveOf(s.dials[k].phase.outcome);
        s.(dials := s.dials[k := s.dials[k].(phase := Finished(o))],
           policies := if active.Some? then Activated(s.policies, s.dials[k].source, active.value) else s.policies)
      else s
  }

  ghost function ExecFrom(s: State, events: seq<Event>): State
    decreases |events|
  {
    if events == [] then s else ExecFrom(Step(s, events[0]), events[1..])
  }

  // ---- what every run keeps ----

  ghost predicate ActiveOk(devices: seq<Device>, active: Id) {
    active == "" || active == DIRECT || Exists(devices, active)
  }

  ghost predicate PolicyOk(devices: seq<Device>, p: Policy) {
    && |p.exits| <= MAX_EXITS && NoRepeats(p.exits)
    && (forall i :: 0 <= i < |p.exits| ==> Exists(devices, p.exits[i]))
    && ActiveOk(devices, p.active) && Exists(devices, p.source)
  }

  function Failures(exits: seq<Id>): seq<Attempt> {
    seq(|exits|, i requires 0 <= i < |exits| => Attempt(exits[i], false))
  }

  /** The outcome goes with the attempts: the first exit in order that worked; or no exit
      worked and the direct connection was attempted, which only a policy that says so allows;
      or no exit worked and nothing else was attempted. */
  ghost predicate Justified(exits: seq<Id>, onFailure: OnFailure, log: seq<Attempt>, o: Outcome) {
    match o
    case Via(exit) =>
      exists n :: 0 <= n < |exits| && exits[n] == exit && log == Failures(exits[..n]) + [Attempt(exit, true)]
    case Straight => onFailure.Direct? && log == Failures(exits) + [Attempt(DIRECT, true)]
    case StraightFailed => onFailure.Direct? && log == Failures(exits) + [Attempt(DIRECT, false)]
    case Blocked => onFailure.Block? && log == Failures(exits)
  }

  ghost predicate LogOk(d: Dial) {
    match d.phase
    case Trying(n) => n <= |d.exits| && d.log == Failures(d.exits[..n])
    case Reporting(o) => Justified(d.exits, d.onFailure, d.log, o)
    case Finished(o) => Justified(d.exits, d.onFailure, d.log, o)
  }

  ghost predicate DialOk(devices: seq<Device>, d: Dial) {
    && |d.exits| <= MAX_EXITS && NoRepeats(d.exits)
    && (forall i :: 0 <= i < |d.exits| ==> Exists(devices, d.exits[i]))
    && LogOk(d)
  }

  ghost predicate OnePerSource(ps: seq<Policy>) {
    forall i, j :: 0 <= i < j < |ps| ==> ps[i].source != ps[j].source
  }

  /** What a file may hold: a first start has the server's own device and no policies. */
  ghost predicate Loadable(devices: seq<Device>, policies: seq<Policy>) {
    OnePerSource(policies) && forall i :: 0 <= i < |policies| ==> PolicyOk(devices, policies[i])
  }

  ghost predicate Inv(s: State) {
    && Loadable(s.devices, s.policies)
    && (forall k :: k in s.dials ==> DialOk(s.devices, s.dials[k]))
  }

  /** The devices may have changed, but none has gone. */
  ghost predicate Keeps(a: seq<Device>, b: seq<Device>) { forall id :: Exists(a, id) ==> Exists(b, id) }

  lemma DevicesKeep(s: State, e: Event)
    ensures Keeps(s.devices, Step(s, e).devices)
  {
    var t := Step(s, e);
    forall id | Exists(s.devices, id) ensures Exists(t.devices, id) {
      var i :| 0 <= i < |s.devices| && s.devices[i].id == id;
      assert t.devices[i].id == id;
    }
  }

  lemma {:induction false} PolicyOfIn(ps: seq<Policy>, source: Id)
    ensures !HasPolicy(ps, source) ==> PolicyOf(ps, source) == Policy("", [], Block, "")
    ensures HasPolicy(ps, source) ==> PolicyOf(ps, source) in ps && PolicyOf(ps, source).source == source
    decreases |ps|
  {
    if ps != [] {
      var n := |ps| - 1;
      PolicyOfIn(ps[..n], source);
      if ps[n].source != source && HasPolicy(ps, source) {
        var i :| 0 <= i < |ps| && ps[i].source == source;
        assert ps[..n][i] == ps[i];
      }
      if HasPolicy(ps[..n], source) {
        var i :| 0 <= i < n && ps[..n][i].source == source;
        assert ps[i].source == source;
      }
    }
  }

  /** No exit of a stored policy is ever missing, so a snapshot has all of them in order. */
  lemma {:induction false} AllPresent(devices: seq<Device>, exits: seq<Id>)
    requires forall i :: 0 <= i < |exits| ==> Exists(devices, exits[i])
    ensures Present(devices, exits) == exits
    decreases |exits|
  {
    if exits != [] {
      var n := |exits| - 1;
      forall i | 0 <= i < n ensures Exists(devices, exits[..n][i]) { assert exits[..n][i] == exits[i]; }
      AllPresent(devices, exits[..n]);
      assert exits == exits[..n] + [exits[n]];
    }
  }

  lemma PutKeeps(s: State, p: Policy)
    requires Inv(s) && Acceptable(s.devices, p) && p.active == ""
    ensures Inv(s.(policies := WithPolicy(s.policies, p)))
  {
    var ps := WithPolicy(s.policies, p);
    forall i | 0 <= i < |ps| ensures PolicyOk(s.devices, ps[i]) { }
    forall i, j | 0 <= i < j < |ps| ensures ps[i].source != ps[j].source { }
  }

  lemma ReportKeeps(s: State, k: DialId)
    requires Inv(s) && k in s.dials
    ensures Inv(Step(s, Reports(k)))
  {
    var t := Step(s, Reports(k));
    assert DialOk(s.devices, s.dials[k]);
    forall i | 0 <= i < |t.policies| ensures PolicyOk(t.devices, t.policies[i]) {
      assert PolicyOk(s.devices, s.policies[i]);
    }
    forall i, j | 0 <= i < j < |t.policies| ensures t.policies[i].source != t.policies[j].source {
      assert s.policies[i].source != s.policies[j].source;
    }
  }

  /** The policy that a dial finds: all its exits are different devices. */
  lemma FoundPolicy(devices: seq<Device>, ps: seq<Policy>, source: Id)
    requires Loadable(devices, ps)
    ensures var p := PolicyOf(ps, source);
      && |p.exits| <= MAX_EXITS && NoRepeats(p.exits)
      && (forall i :: 0 <= i < |p.exits| ==> Exists(devices, p.exits[i]))
      && Present(devices, p.exits) == p.exits
  {
    var p := PolicyOf(ps, source);
    PolicyOfIn(ps, source);
    if HasPolicy(ps, source) {
      var i :| 0 <= i < |ps| && ps[i] == p;
      assert PolicyOk(devices, ps[i]);
    }
    AllPresent(devices, p.exits);
  }

  lemma StartKeeps(s: State, k: DialId, source: Id)
    requires Inv(s)
    ensures Inv(Step(s, StartsDial(k, source)))
  {
    FoundPolicy(s.devices, s.policies, source);
    var p := PolicyOf(s.policies, source);
    assert DialOk(s.devices, Dial(source, p.exits, p.onFailure, Trying(0), []));
  }

  lemma StepKeeps(s: State, e: Event)
    requires Inv(s)
    ensures Inv(Step(s, e))
  {
    match e {
      case PutsPolicy(p, saves) =>
        if Acceptable(s.devices, p) { PutKeeps(s, p.(active := "")); }
      case StartsDial(k, source) => StartKeeps(s, k, source);
      case Reports(k) => if k in s.dials { ReportKeeps(s, k); }
      case Tries(k, ok) =>
      case _ => DevicesOnly(s, e);
    }
  }

  lemma DevicesOnly(s: State, e: Event)
    requires Inv(s) && (e.Joins? || e.UpdatesDevice?)
    ensures Inv(Step(s, e))
  {
    var t := Step(s, e);
    DevicesKeep(s, e);
    forall i | 0 <= i < |t.policies| ensures PolicyOk(t.devices, t.policies[i]) { }
    forall k | k in t.dials ensures DialOk(t.devices, t.dials[k]) { assert DialOk(s.devices, s.dials[k]); }
  }

  lemma {:induction false} RunKeeps(s: State, events: seq<Event>)
    requires Inv(s)
    ensures Inv(ExecFrom(s, events))
    decreases |events|
  {
    if events != [] {
      StepKeeps(s, events[0]);
      RunKeeps(Step(s, events[0]), events[1..]);
    }
  }

  /** The server as it starts, with the devices and policies of its file. */
  function Start(devices: seq<Device>, policies: seq<Policy>): State { State(devices, policies, map[]) }

  ghost function Run(devices: seq<Device>, policies: seq<Policy>, events: seq<Event>): State {
    ExecFrom(Start(devices, policies), events)
  }

  lemma RunInv(devices: seq<Device>, policies: seq<Policy>, events: seq<Event>)
    requires Loadable(devices, policies)
    ensures Inv(Run(devices, policies, events))
  {
    RunKeeps(Start(devices, policies), events);
  }

  /** In every run of a server that has loaded its file, with policies replaced and devices
      joining while dials are under way: one policy per source, with at most 20 different
      exits that are existing devices, and Active is empty, DIRECT or an existing device. What
      is saved at any point can be loaded again, so runs go on over restarts. */
  lemma EveryRunKeepsPolicies(devices: seq<Device>, policies: seq<Policy>, events: seq<Event>)
    requires Loadable(devices, policies)
    ensures var s := Run(devices, policies, events);
      && OnePerSource(s.policies)
      && (forall i :: 0 <= i < |s.policies| ==>
           && |s.policies[i].exits| <= 20 && NoRepeats(s.policies[i].exits)
           && (forall j :: 0 <= j < |s.policies[i].exits| ==> Exists(s.devices, s.policies[i].exits[j]))
           && ActiveOk(s.devices, s.policies[i].active))
      && Loadable(s.devices, s.policies)
  {
    RunInv(devices, policies, events);
    var s := Run(devices, policies, events);
    forall i | 0 <= i < |s.policies| ensures PolicyOk(s.devices, s.policies[i]) { }
  }

  /** In every run the outcome of every dial is justified by what it attempted. */
  lemma EveryDialIsJustified(devices: seq<Device>, policies: seq<Policy>, events: seq<Event>, k: DialId)
    requires Loadable(devices, policies)
    requires var s := Run(devices, policies, events); k in s.dials && !s.dials[k].phase.Trying?
    ensures var d := Run(devices, policies, events).dials[k];
      Justified(d.exits, d.onFailure, d.log, d.phase.outcome)
  {
    RunInv(devices, policies, events);
    var s := Run(devices, policies, events);
    assert DialOk(s.devices, s.dials[k]);
  }

  /** A dial works with exactly the exits of its source's policy at the time, and without a
      policy it has none, blocks, and attempts nothing. */
  lemma SnapshotIsThePolicy(
    devices: seq<Device>, policies: seq<Policy>, events: seq<Event>, k: DialId, source: Id)
    requires Loadable(devices, policies) && k !in Run(devices, policies, events).dials
    ensures var s := Run(devices, policies, events);
      var d, p := Step(s, StartsDial(k, source)).dials[k], PolicyOf(s.policies, source);
      && d == Dial(source, p.exits, p.onFailure, Trying(0), [])
      && (!HasPolicy(s.policies, source) ==> forall ok :: Try(d, ok) == d.(phase := Reporting(Blocked)))
  {
    RunInv(devices, policies, events);
    var s := Run(devices, policies, events);
    FoundPolicy(s.devices, s.policies, source);
    PolicyOfIn(s.policies, source);
  }

  /** A dial's report names the current state of its own source only, and never invents an id. */
  lemma ReportChangesActiveOnly(
    devices: seq<Device>, policies: seq<Policy>, events: seq<Event>, k: DialId, i: nat)
    requires Loadable(devices, policies) && i < |Run(devices, policies, events).policies|
    ensures var s := Run(devices, policies, events);
      var t := Step(s, Reports(k));
      && |t.policies| == |s.policies|
      && t.policies[i].(active := "") == s.policies[i].(active := "")
      && (t.policies[i].active != s.policies[i].active ==>
           k in s.dials && s.dials[k].source == t.policies[i].source)
      && ActiveOk(t.devices, t.policies[i].active)
  {
    RunInv(devices, policies, events);
    var s := Run(devices, policies, events);
    StepKeeps(s, Reports(k));
    var t := Step(s, Reports(k));
    assert PolicyOk(t.devices, t.policies[i]);
  }

  /** A new device comes last, without a proxy; an update whose save works changes the proxy of its own
      device only. Neither touches a policy or a dial. */
  lemma DevicesChange(s: State, id: Id, port: int, saves: bool)
    ensures Step(s, Joins(id)) ==
      s.(devices := s.devices + (if Exists(s.devices, id) || id == "" || id == "DIRECT" then [] else [Device(id, 0)]))
    ensures var t := Step(s, UpdatesDevice(id, port, saves));
      && t == s.(devices := t.devices) && |t.devices| == |s.devices|
      && forall i :: 0 <= i < |s.devices| ==>
           t.devices[i] == if saves && s.devices[i].id == id then Device(id, port) else s.devices[i]
  {
  }

  // ---- a whole dial ----

  /** What a dial comes to, when `works` and `direct` say which connections succeed: it goes through
      the first exit that works; if none does, the policy decides whether it goes directly. */
  ghost predicate ComesTo(exits: seq<Id>, onFailure: OnFailure, works: Id -> bool, direct: bool, o: Outcome) {
    match o
    case Via(exit) =>
      exists n :: 0 <= n < |exits| && exits[n] == exit && works(exit) && forall j :: 0 <= j < n ==> !works(exits[j])
    case Straight => (forall j :: 0 <= j < |exits| ==> !works(exits[j])) && onFailure == Direct && direct
    case StraightFailed => (forall j :: 0 <= j < |exits| ==> !works(exits[j])) && onFailure == Direct && !direct
    case Blocked => (forall j :: 0 <= j < |exits| ==> !works(exits[j])) && onFailure == Block
  }

  /** The report of an outcome: Active of the source's policies is the exit, DIRECT, or empty if the dial
      was blocked; after a failed direct dial nothing changes. */
  ghost predicate Reported(was: seq<Policy>, now: seq<Policy>, source: Id, o: Outcome) {
    && |now| == |was|
    && forall i :: 0 <= i < |was| ==>
         now[i] == if was[i].source != source || o.StraightFailed? then was[i]
                   else was[i].(active := match o case Via(exit) => exit case Straight => "DIRECT" case _ => "")
  }

  lemma FirstEvent(s: State, e: Event, rest: seq<Event>)
    ensures ExecFrom(s, [e] + rest) == ExecFrom(Step(s, e), rest)
  {
    assert ([e] + rest)[1..] == rest;
  }

  lemma OneEvent(s: State, e: Event)
    ensures ExecFrom(s, [e]) == Step(s, e)
  {
    FirstEvent(s, e, []);
    assert [e] + [] == [e];
  }

  /** The rest of the attempts, the first n exits having failed. */
  lemma {:induction false} DialGoesOn(s: State, k: DialId, works: Id -> bool, direct: bool)
    returns (events: seq<Event>, o: Outcome)
    requires k in s.dials && s.dials[k].phase.Trying? && s.dials[k].phase.tried <= |s.dials[k].exits|
    requires forall j :: 0 <= j < s.dials[k].phase.tried ==> !works(s.dials[k].exits[j])
    ensures ComesTo(s.dials[k].exits, s.dials[k].onFailure, works, direct, o)
    ensures var t := ExecFrom(s, events);
      k in t.dials && t == s.(dials := s.dials[k := s.dials[k].(phase := Reporting(o), log := t.dials[k].log)])
    decreases |s.dials[k].exits| - s.dials[k].phase.tried
  {
    var d := s.dials[k];
    var n := d.phase.tried;
    var ok := if n < |d.exits| then works(d.exits[n]) else direct;
    var t := Step(s, Tries(k, ok));
    assert t == s.(dials := s.dials[k := Try(d, ok)]);
    if n < |d.exits| && !ok {
      var rest;
      rest, o := DialGoesOn(t, k, works, direct);
      events := [Tries(k, ok)] + rest;
      FirstEvent(s, Tries(k, ok), rest);
      assert s.dials[k := Try(d, ok)][k := ExecFrom(t, rest).dials[k]] == s.dials[k := ExecFrom(t, rest).dials[k]];
    } else {
      events := [Tries(k, ok)];
      OneEvent(s, Tries(k, ok));
      o := Try(d, ok).phase.outcome;
    }
  }

  lemma ReportsIt(s: State, k: DialId)
    requires k in s.dials && s.dials[k].phase.Reporting?
    ensures var t, d := Step(s, Reports(k)), s.dials[k];
      && t == s.(dials := s.dials[k := d.(phase := Finished(d.phase.outcome))], policies := t.policies)
      && Reported(s.policies, t.policies, d.source, d.phase.outcome)
  {
  }

  /** A dial with this snapshot, from its start to its report. */
  lemma DialRun(s: State, k: DialId, source: Id, exits: seq<Id>, onFailure: OnFailure, works: Id -> bool, direct: bool)
    returns (events: seq<Event>, o: Outcome)
    requires Step(s, StartsDial(k, source)) == s.(dials := s.dials[k := Dial(source, exits, onFailure, Trying(0), [])])
    ensures ComesTo(exits, onFailure, works, direct, o)
    ensures var t := ExecFrom(s, events);
      && k in t.dials && t.dials[k].phase == Finished(o)
      && t == s.(dials := s.dials[k := t.dials[k]], policies := t.policies)
      && Reported(s.policies, t.policies, source, o)
  {
    var s1 := Step(s, StartsDial(k, source));
    var tries;
    tries, o := DialGoesOn(s1, k, works, direct);
    var s2 := ExecFrom(s1, tries);
    events := [StartsDial(k, source)] + (tries + [Reports(k)]);
    FirstEvent(s, StartsDial(k, source), tries + [Reports(k)]);
    ExecConcat(s1, tries, [Reports(k)]);
    OneEvent(s2, Reports(k));
    ReportsIt(s2, k);
    var t := Step(s2, Reports(k));
    assert t.dials == s.dials[k := t.dials[k]];
  }

  /** From any reachable state a dial that meets these connections ends: with all exits of the source's
      policy at that time, with the outcome that the connections call for, which is reported, and with no
      other effect. Without a policy it is blocked. */
  lemma EveryDialEnds(
    devices: seq<Device>, policies: seq<Policy>, before: seq<Event>, k: DialId, source: Id,
    works: Id -> bool, direct: bool) returns (events: seq<Event>, o: Outcome)
    requires Loadable(devices, policies) && k !in Run(devices, policies, before).dials
    ensures var s := Run(devices, policies, before);
      var t := ExecFrom(s, events);
      && (forall i :: 0 <= i < |s.policies| && s.policies[i].source == source ==>
           ComesTo(s.policies[i].exits, s.policies[i].onFailure, works, direct, o))
      && (!HasPolicy(s.policies, source) ==> o == Blocked)
      && k in t.dials && t.dials[k].phase == Finished(o)
      && t == s.(dials := s.dials[k := t.dials[k]], policies := t.policies)
      && Reported(s.policies, t.policies, source, o)
  {
    var s := Run(devices, policies, before);
    RunInv(devices, policies, before);
    FoundPolicy(s.devices, s.policies, source);
    OnlyPolicy(s.policies, source);
    PolicyOfIn(s.policies, source);
    var p := PolicyOf(s.policies, source);
    events, o := DialRun(s, k, source, p.exits, p.onFailure, works, direct);
  }

  /** With one policy per source, the one found is the only one. */
  lemma OnlyPolicy(ps: seq<Policy>, source: Id)
    requires OnePerSource(ps)
    ensures forall i :: 0 <= i < |ps| && ps[i].source == source ==> ps[i] == PolicyOf(ps, source)
  {
    forall i | 0 <= i < |ps| && ps[i].source == source ensures ps[i] == PolicyOf(ps, source) {
      PolicyOfIn(ps, source);
      var j :| 0 <= j < |ps| && ps[j] == PolicyOf(ps, source);
      assert i == j;
    }
  }

  lemma {:induction false} ExecConcat(s: State, f: seq<Event>, g: seq<Event>)
    ensures ExecFrom(s, f + g) == ExecFrom(ExecFrom(s, f), g)
    decreases |f|
  {
    if f == [] {
      assert f + g == g;
    } else {
      assert (f + g)[0] == f[0] && (f + g)[1..] == f[1..] + g;
      ExecConcat(Step(s, f[0]), f[1..], g);
    }
  }

  // ---- Active and the current policy ----

  // A dial reports what it took from an earlier snapshot, so Active is not always an exit of
  // the policy it is written into: here is exactly when.

  /** Active is empty, DIRECT, or among the policy's own exits. */
  ghost predicate Current(ps: seq<Policy>) {
    forall i :: 0 <= i < |ps| ==> ps[i].active == "" || ps[i].active == DIRECT || ps[i].active in ps[i].exits
  }

  /** The dial is about to report an exit that its source's policy does not have any more. */
  ghost predicate Stale(s: State, k: DialId) {
    && k in s.dials && s.dials[k].phase.Reporting? && s.dials[k].phase.outcome.Via?
    && exists i :: 0 <= i < |s.policies|
         && s.policies[i].source == s.dials[k].source && s.dials[k].phase.outcome.exit !in s.policies[i].exits
  }

  ghost predicate StaleReport(s: State, e: Event) { e.Reports? && Stale(s, e.k) }

  /** No device bears a name that Active uses otherwise; the server gives its own. */
  ghost predicate Named(devices: seq<Device>) { !Exists(devices, "") && !Exists(devices, DIRECT) }

  lemma NamedStays(s: State, e: Event)
    requires Named(s.devices)
    ensures Named(Step(s, e).devices)
  {
    var t := Step(s, e);
    forall i | 0 <= i < |t.devices| ensures t.devices[i].id != "" && t.devices[i].id != DIRECT {
      if i < |s.devices| { assert Exists(s.devices, s.devices[i].id); }
    }
  }

  lemma PutIsCurrent(ps: seq<Policy>, p: Policy)
    requires p.active == ""
    ensures Current(ps) ==> Current(WithPolicy(ps, p))
  {
  }

  /** A dial that ended through an exit took it from its own list, so it is a device. */
  lemma ViaIsExit(s: State, k: DialId)
    requires Inv(s) && k in s.dials && s.dials[k].phase.Reporting? && s.dials[k].phase.outcome.Via?
    ensures Exists(s.devices, s.dials[k].phase.outcome.exit)
  {
    assert DialOk(s.devices, s.dials[k]);
  }

  lemma ActivatedIsCurrent(ps: seq<Policy>, source: Id, active: Id)
    requires Current(ps)
    ensures Current(Activated(ps, source, active)) <==>
      active == "" || active == DIRECT
      || forall i :: 0 <= i < |ps| && ps[i].source == source ==> active in ps[i].exits
  {
    var qs := Activated(ps, source, active);
    forall i | 0 <= i < |ps|
      ensures qs[i].exits == ps[i].exits && qs[i].active == if ps[i].source == source then active else ps[i].active
    {
    }
  }

  lemma ReportIsCurrent(s: State, k: DialId)
    requires Inv(s) && Named(s.devices) && Current(s.policies)
    ensures Current(Step(s, Reports(k)).policies) <==> !Stale(s, k)
  {
    if k in s.dials && s.dials[k].phase.Reporting? {
      var d := s.dials[k];
      if d.phase.outcome.Via? { ViaIsExit(s, k); }
      var active := ActiveOf(d.phase.outcome);
      if active.Some? { ActivatedIsCurrent(s.policies, d.source, active.value); }
    }
  }

  /** Whether Active stays an exit of the current policy is up to the reports alone. */
  lemma StepIsCurrent(s: State, e: Event)
    requires Inv(s) && Named(s.devices) && Current(s.policies)
    ensures Current(Step(s, e).policies) <==> !StaleReport(s, e)
  {
    match e {
      case Reports(k) => ReportIsCurrent(s, k);
      case PutsPolicy(p, saves) => PutIsCurrent(s.policies, p.(active := ""));
      case _ =>
    }
  }

  ghost predicate AlwaysCurrent(s: State, events: seq<Event>)
    decreases |events|
  {
    Current(s.policies) && (events == [] || AlwaysCurrent(Step(s, events[0]), events[1..]))
  }

  ghost predicate NoneStale(s: State, events: seq<Event>)
    decreases |events|
  {
    events == [] || (!StaleReport(s, events[0]) && NoneStale(Step(s, events[0]), events[1..]))
  }

  lemma {:induction false} RunIsCurrent(s: State, events: seq<Event>)
    requires Inv(s) && Named(s.devices) && Current(s.policies)
    ensures AlwaysCurrent(s, events) <==> NoneStale(s, events)
    decreases |events|
  {
    if events != [] {
      var t := Step(s, events[0]);
      StepIsCurrent(s, events[0]);
      StepKeeps(s, events[0]);
      NamedStays(s, events[0]);
      if Current(t.policies) { RunIsCurrent(t, events[1..]); }
    }
  }

  /** In a run from any loaded file in which it holds at first, Active is empty, DIRECT or an exit
      of the current policy after every event if and only if no dial reports an exit that its
      source's policy has lost since the dial began. */
  lemma ActiveIsCurrent(devices: seq<Device>, policies: seq<Policy>, events: seq<Event>)
    requires Loadable(devices, policies) && Named(devices) && Current(policies)
    ensures AlwaysCurrent(Start(devices, policies), events) <==> NoneStale(Start(devices, policies), events)
  {
    RunIsCurrent(Start(devices, policies), events);
  }

  // ---- a stale report ----

  /** A source and an exit, and a policy that lets the one use the other. */
  function Pair(exits: seq<Id>): Policy { Policy("source", exits, Block, "") }

  const PAIR := [Device("source", 1080), Device("exit", 1080)]

  lemma PairLoads()
    ensures Loadable(PAIR, [Pair(["exit"])]) && Named(PAIR) && Current([Pair(["exit"])])
  {
    assert PAIR[0].id == "source" && PAIR[1].id == "exit";
    assert Exists(PAIR, "source") && Exists(PAIR, "exit");
  }

  lemma PairDials()
    ensures Step(Start(PAIR, [Pair(["exit"])]), StartsDial(0, "source"))
         == State(PAIR, [Pair(["exit"])], map[0 := Dial("source", ["exit"], Block, Trying(0), [])])
  {
    var p := Pair(["exit"]);
    assert PolicyOf([p], "source") == p;
    assert PAIR[1].id == "exit";
    AllPresent(PAIR, p.exits);
  }

  lemma PairReplaced(dials: map<DialId, Dial>)
    ensures Step(State(PAIR, [Pair(["exit"])], dials), PutsPolicy(Pair([]), true)) == State(PAIR, [Pair([])], dials)
  {
    assert PAIR[0].id == "source";
    assert [Pair(["exit"])][0].source == "source";
    assert WithPolicy([Pair(["exit"])], Pair([])) == [Pair([])];
  }

  /** The dial through the exit has worked. */
  function Worked(phase: Phase): map<DialId, Dial> {
    map[0 := Dial("source", ["exit"], Block, phase, [Attempt("exit", true)])]
  }

  lemma PairTries()
    ensures
      var dials := map[0 := Dial("source", ["exit"], Block, Trying(0), [])];
      Step(State(PAIR, [Pair(["exit"])], dials), Tries(0, true))
      == State(PAIR, [Pair(["exit"])], Worked(Reporting(Via("exit"))))
  {
    assert [] + [Attempt("exit", true)] == [Attempt("exit", true)];
  }

  lemma PairReports()
    ensures Step(State(PAIR, [Pair([])], Worked(Reporting(Via("exit")))), Reports(0))
         == State(PAIR, [Pair([]).(active := "exit")], Worked(Finished(Via("exit"))))
  {
    assert Activated([Pair([])], "source", "exit") == [Pair([]).(active := "exit")];
  }

  /** A dial through the exit works; before it reports, the policy loses the exit; then it
      reports, and Active names an exit that the policy does not have. */
  lemma ReportAfterReplacement()
    ensures Loadable(PAIR, [Pair(["exit"])]) && Named(PAIR) && Current([Pair(["exit"])])
    ensures
      var replaced := [PutsPolicy(Pair([]), true)] + ([Reports(0)] + []);
      var events := [StartsDial(0, "source")] + ([Tries(0, true)] + replaced);
      Run(PAIR, [Pair(["exit"])], events).policies == [Pair([]).(active := "exit")]
  {
    PairLoads();
    PairDials();
    PairTries();
    PairReplaced(Worked(Reporting(Via("exit"))));
    PairReports();
    var s0 := Start(PAIR, [Pair(["exit"])]);
    var s1 := Step(s0, StartsDial(0, "source"));
    var s2 := Step(s1, Tries(0, true));
    var s3 := Step(s2, PutsPolicy(Pair([]), true));
    var e3 := [Reports(0)] + [];
    var e2 := [PutsPolicy(Pair([]), true)] + e3;
    var e1 := [Tries(0, true)] + e2;
    FirstEvent(s3, Reports(0), []);
    FirstEvent(s2, PutsPolicy(Pair([]), true), e3);
    FirstEvent(s1, Tries(0, true), e2);
    FirstEvent(s0, StartsDial(0, "source"), e1);
  }

  // ---- the handlers ----

  /** The dialler's loop, outside the lock. `works` and `direct` say which connections succeed. */
  method Dialling(exits: seq<Id>, onFailure: OnFailure, works: Id -> bool, direct: bool)
      returns (outcome: Outcome, log: seq<Attempt>)
    ensures Justified(exits, onFailure, log, outcome)
    ensures forall i :: 0 <= i < |log| ==> log[i].ok == (if i < |exits| then works(log[i].target) else direct)
    ensures outcome.Via? <==> exists i :: 0 <= i < |exits| && works(exits[i])
    ensures ComesTo(exits, onFailure, works, direct, outcome)
  {
    log := [];
    var i := 0;
    while i < |exits|
      invariant 0 <= i <= |exits| && log == Failures(exits[..i])
      invariant forall j :: 0 <= j < i ==> !works(exits[j])
    {
      log := log + [Attempt(exits[i], works(exits[i]))];
      if works(exits[i]) {
        return Via(exits[i]), log;
      }
      assert log == Failures(exits[..i + 1]);
      i := i + 1;
    }
    assert exits[..i] == exits;
    if onFailure.Direct? {
      log := log + [Attempt(DIRECT, direct)];
      return if direct then Straight else StraightFailed, log;
    }
    outcome := Blocked;
  }

  lemma RepeatSpoils(ids: seq<Id>, i: nat)
    requires i < |ids| && ids[i] in ids[..i]
    ensures !NoRepeats(ids)
  {
    var j :| 0 <= j < i && ids[..i][j] == ids[i];
    assert ids[j] == ids[i];
  }

  method CheckExits(devices: seq<Device>, exits: seq<Id>) returns (ok: bool)
    ensures ok <==> NoRepeats(exits) && forall i :: 0 <= i < |exits| ==> Usable(devices, exits[i])
    ensures ok <==> NoRepeats(exits) && forall i :: 0 <= i < |exits| ==>
      var d := Find(devices, exits[i]); d.Some? && d.value.proxyPort != 0
  {
    var seen, i := {}, 0;
    while i < |exits|
      invariant 0 <= i <= |exits|
      invariant forall id :: id in seen <==> id in exits[..i]
      invariant NoRepeats(exits[..i])
      invariant forall j :: 0 <= j < i ==> Usable(devices, exits[j])
    {
      var d := Find(devices, exits[i]);
      if d.None? || d.value.proxyPort == 0 {
        assert !Usable(devices, exits[i]);
        return false;
      }
      if exits[i] in seen {
        RepeatSpoils(exits, i);
        return false;
      }
      assert exits[..i + 1] == exits[..i] + [exits[i]];
      seen := seen + {exits[i]};
      i := i + 1;
    }
    assert exits[..i] == exits;
    ok := true;
  }

  class PolicyServer {
    var devices: seq<Device>
    var policies: seq<Policy>
    ghost var m: State

    ghost predicate Valid() reads this { m.devices == devices && m.policies == policies && Inv(m) }

    constructor (known: seq<Device>, loaded: seq<Policy>)
      requires Loadable(known, loaded)
      ensures Valid() && m == Start(known, loaded)
    {
      devices, policies := known, loaded;
      m := Start(known, loaded);
    }

    /** Are all exits different devices with a proxy? */
    method Check(p: Policy) returns (ok: bool)
      ensures ok <==> Acceptable(devices, p)
    {
      if |p.exits| > MAX_EXITS || Find(devices, p.source).None? {
        return false;
      }
      ok := CheckExits(devices, p.exits);
    }

    /** Overwrite the policies of the same source; tell whether there was one. */
    method Overwrite(p: Policy) returns (found: bool)
      modifies this`policies
      ensures policies == Replaced(old(policies), p) && (found <==> HasPolicy(old(policies), p.source))
    {
      found := false;
      var i := 0;
      while i < |policies|
        invariant 0 <= i <= |policies| == |old(policies)|
        invariant forall j :: 0 <= j < i ==>
          policies[j] == if old(policies)[j].source == p.source then p else old(policies)[j]
        invariant forall j :: i <= j < |policies| ==> policies[j] == old(policies)[j]
        invariant found <==> exists j :: 0 <= j < i && old(policies)[j].source == p.source
      {
        if policies[i].source == p.source {
          policies := policies[i := p];
          found := true;
        }
        i := i + 1;
      }
    }

    /** A failed save puts the old policies back, Active included. */
    method PutPolicy(requested: Policy, saves: bool) returns (ok: bool)
      requires Valid()
      modifies this
      ensures Valid() && m == Step(old(m), PutsPolicy(requested, saves))
      ensures ok <==> Acceptable(devices, requested) && saves
      ensures ok <==>
        && saves && |requested.exits| <= 20 && Exists(devices, requested.source) && NoRepeats(requested.exits)
        && forall i :: 0 <= i < |requested.exits| ==>
             var d := Find(devices, requested.exits[i]); d.Some? && d.value.proxyPort != 0
      ensures ok ==>
        HasPolicy(policies, requested.source) && PolicyOf(policies, requested.source) == requested.(active := "")
      ensures ok ==> PolicySet(old(policies), policies, requested.(active := ""))
      ensures devices == old(devices)
      ensures !ok ==> policies == old(policies)
    {
      StepKeeps(m, PutsPolicy(requested, saves));
      m := Step(m, PutsPolicy(requested, saves));
      var p := requested.(active := "");
      var passes := Check(requested);
      if !passes {
        return false;
      }
      var before := policies;
      var found := Overwrite(p);
      if !found {
        assert Replaced(before, p) == before;
        policies := policies + [p];
      }
      assert policies == WithPolicy(before, p);
      if !saves {
        policies := before;
        return false;
      }
      ok := true;
      PutIsFound(before, p);
      PolicyIsSet(before, p);
    }

    /** The snapshot of a dial. */
    method Snapshot(k: DialId, source: Id) returns (exits: seq<Id>, onFailure: OnFailure)
      requires Valid() && k !in m.dials
      modifies this`m
      ensures Valid() && m == Step(old(m), StartsDial(k, source))
      ensures m.dials[k] == Dial(source, exits, onFailure, Trying(0), [])
    {
      StepKeeps(m, StartsDial(k, source));
      m := Step(m, StartsDial(k, source));
      var p := Lookup(source);
      onFailure := p.onFailure;
      exits := Resolve(p.exits);
    }

    method Lookup(source: Id) returns (p: Policy)
      ensures p == PolicyOf(policies, source)
    {
      p := Policy("", [], Block, "");
      var i := 0;
      while i < |policies|
        invariant 0 <= i <= |policies| && p == PolicyOf(policies[..i], source)
      {
        assert policies[..i + 1][..i] == policies[..i];
        if policies[i].source == source {
          p := policies[i];
        }
        i := i + 1;
      }
      assert policies[..i] == policies;
    }

    method Resolve(ids: seq<Id>) returns (exits: seq<Id>)
      ensures exits == Present(devices, ids)
    {
      exits := [];
      var i := 0;
      while i < |ids|
        invariant 0 <= i <= |ids| && exits == Present(devices, ids[..i])
      {
        assert ids[..i + 1][..i] == ids[..i];
        if Find(devices, ids[i]).Some? {
          exits := exits + [ids[i]];
        }
        i := i + 1;
      }
      assert ids[..i] == ids;
    }

    /** Write the result of a dial into whatever policy its source has now. */
    method SetActive(source: Id, active: Id)
      modifies this`policies
      ensures policies == Activated(old(policies), source, active)
    {
      var i := 0;
      while i < |policies|
        invariant 0 <= i <= |policies| == |old(policies)|
        invariant forall j :: 0 <= j < i ==>
          policies[j] ==
            if old(policies)[j].source == source then old(policies)[j].(active := active) else old(policies)[j]
        invariant forall j :: i <= j < |policies| ==> policies[j] == old(policies)[j]
      {
        if policies[i].source == source {
          policies := policies[i := policies[i].(active := active)];
        }
        i := i + 1;
      }
    }

    method Report(k: DialId, source: Id, outcome: Outcome)
      requires Valid() && k in m.dials && m.dials[k].source == source && m.dials[k].phase == Reporting(outcome)
      modifies this
      ensures Valid() && m == Step(old(m), Reports(k))
      ensures Reported(old(policies), policies, source, outcome) && devices == old(devices)
    {
      StepKeeps(m, Reports(k));
      m := Step(m, Reports(k));
      match outcome {
        case Via(exit) => SetActive(source, exit);
        case Straight => SetActive(source, DIRECT);
        case StraightFailed =>
        case Blocked => SetActive(source, "");
      }
    }
  }

  lemma PutIsFound(ps: seq<Policy>, p: Policy)
    ensures HasPolicy(WithPolicy(ps, p), p.source) && PolicyOf(WithPolicy(ps, p), p.source) == p
  {
    var after := WithPolicy(ps, p);
    if HasPolicy(ps, p.source) {
      var i :| 0 <= i < |ps| && ps[i].source == p.source;
      assert after[i].source == p.source;
    } else {
      assert after[|ps|] == p;
    }
    PolicyOfIn(after, p.source);
    var q := PolicyOf(after, p.source);
    var j :| 0 <= j < |after| && after[j] == q;
  }
}
