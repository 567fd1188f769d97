/** A reconciliation pass runs its commands without the server's lock: codes may be issued and
    devices may join between its listing and its commands, and between any two of them. */
module ReconcileRace {
  import opened WireGuard
  import opened Enrollment
  import opened Reconcile

  datatype Action =
    | Enrolls(e: Enrollment.Event)     // a handler, under the lock
    | Sets(c: Command, works: bool)    // the pass, without it

  function Act(cfg: Config, s: State, x: Action): State {
    match x
    case Enrolls(e) => Step(cfg, s, e)
    case Sets(c, works) => if works then s.(table := SetPeer(s.table, c.key, c.ip)) else s
  }

  function ActAll(cfg: Config, s: State, xs: seq<Action>): State
    decreases |xs|
  {
    if xs == [] then s else ActAll(cfg, Act(cfg, s, xs[0]), xs[1..])
  }

  /** The pass issues only what its listing and its copy of the devices call for, in any order
      and as often as it likes. */
  ghost predicate OfPass(x: Action, existing: string, copy: seq<Device>) {
    x.Sets? ==> x.c in Commands(existing, copy)
  }

  /** The list has only grown since the pass copied it. */
  ghost predicate Extends(devices: seq<Device>, copy: seq<Device>) {
    |copy| <= |devices| && devices[..|copy|] == copy
  }

  lemma CommandSpares(existing: string, copy: seq<Device>, devices: seq<Device>, t: seq<Peer>, c: Command, i: nat)
    requires Distinct(devices) && Extends(devices, copy) && c in Commands(existing, copy)
    requires i < |devices| && Owns(t, devices[i].key, devices[i].ip)
    ensures Owns(SetPeer(t, c.key, c.ip), devices[i].key, devices[i].ip)
  {
    CommandsAreDue(existing, copy, c);
    var j :| 0 <= j < |copy| && Due(existing, copy[j]) && c == Command(copy[j].key, copy[j].ip);
    assert copy[j] == devices[j] && c.key != "";
    SetOwns(t, c.key, c.ip, devices[i].key, devices[i].ip);
  }

  /** The address that a join gives away is nobody's, and its key is nobody's. */
  lemma JoinSpares(cfg: Config, s: State, code: string, key: string, id: string, env: Env, i: nat)
    requires i < |s.devices| && Owns(s.table, s.devices[i].key, s.devices[i].ip)
    ensures Owns(JoinStep(cfg, s, code, key, id, env).table, s.devices[i].key, s.devices[i].ip)
  {
    if Proceeds(cfg, s, code, key, env) {
      var ip, d := Chosen(cfg, s, code), s.devices[i];
      assert !HasKey(s.devices, key) && !HasIP(s.devices, ip);
      assert d.key != key && d.ip != ip;
      SetOwns(s.table, key, ip, d.key, d.ip);
      RemoveOwns(SetPeer(s.table, key, ip), key, d.key, d.ip);
    }
  }

  lemma ActSpares(cfg: Config, s: State, x: Action, existing: string, copy: seq<Device>, i: nat)
    requires Distinct(s.devices) && Extends(s.devices, copy) && OfPass(x, existing, copy)
    requires i < |s.devices| && Owns(s.table, s.devices[i].key, s.devices[i].ip)
    ensures Owns(Act(cfg, s, x).table, s.devices[i].key, s.devices[i].ip)
  {
    match x {
      case Sets(c, works) => if works { CommandSpares(existing, copy, s.devices, s.table, c, i); }
      case Enrolls(e) =>
        match e {
          case Join(code, key, id, env) => JoinSpares(cfg, s, code, key, id, env, i);
          case _ =>
        }
    }
  }

  lemma ActExtends(cfg: Config, s: State, x: Action)
    ensures Extends(Act(cfg, s, x).devices, s.devices)
  {
  }

  lemma ActKeeps(cfg: Config, s: State, x: Action)
    requires Inv(s)
    ensures Inv(Act(cfg, s, x))
  {
    match x {
      case Enrolls(e) => StepKeeps(cfg, s, e);
      case Sets(c, works) => SetKeeps(s, if works then SetPeer(s.table, c.key, c.ip) else s.table);
    }
  }

  lemma SetKeeps(s: State, table: seq<Peer>)
    requires Inv(s)
    ensures Inv(s.(table := table))
  {
    var t := s.(table := table);
    forall c ensures CodeOk(t, c) { assert CodeOk(s, c); }
    forall id ensures EntryOk(t, id) { assert EntryOk(s, id); }
  }

  lemma ExtendsOn(a: seq<Device>, b: seq<Device>, c: seq<Device>)
    requires Extends(b, a) && Extends(c, b)
    ensures Extends(c, a)
  {
    assert c[..|a|] == c[..|b|][..|a|];
  }

  /** A pass takes no address from a device that has it: neither from those it knows of nor from
      those that join while it is under way. */
  lemma {:induction false} PassSparesDevices(
    cfg: Config, s: State, xs: seq<Action>, existing: string, copy: seq<Device>, i: nat)
    requires Inv(s) && Extends(s.devices, copy) && (forall x :: x in xs ==> OfPass(x, existing, copy))
    requires i < |s.devices| && Owns(s.table, s.devices[i].key, s.devices[i].ip)
    ensures var t := ActAll(cfg, s, xs);
      Extends(t.devices, s.devices) && Owns(t.table, s.devices[i].key, s.devices[i].ip)
    decreases |xs|
  {
    if xs != [] {
      var t := Act(cfg, s, xs[0]);
      ActSpares(cfg, s, xs[0], existing, copy, i);
      ActExtends(cfg, s, xs[0]);
      ActKeeps(cfg, s, xs[0]);
      ExtendsOn(copy, s.devices, t.devices);
      assert t.devices[i] == t.devices[..|s.devices|][i];
      PassSparesDevices(cfg, t, xs[1..], existing, copy, i);
      ExtendsOn(s.devices, t.devices, ActAll(cfg, t, xs[1..]).devices);
    }
  }

  /** A device that joins during a pass, and is given its route, still has it when the pass is
      over, whatever joins and commands come after. */
  lemma JoinDuringPassKeepsRoute(
    cfg: Config, s: State, code: string, key: string, id: string, env: Env,
    xs: seq<Action>, existing: string, copy: seq<Device>)
    requires Inv(s) && Extends(s.devices, copy) && (forall x :: x in xs ==> OfPass(x, existing, copy))
    requires Listable(s.table) && Consistent(s.table) && !HasId(s.devices, id) && id !in s.joined
    requires Proceeds(cfg, s, code, key, env) && env.saveOk && IsPlain(Chosen(cfg, s, code))
    requires !LooksAdopted(s.table, key, Chosen(cfg, s, code))
    ensures var t := ActAll(cfg, Act(cfg, s, Enrolls(Join(code, key, id, env))), xs);
      Owns(t.table, key, Chosen(cfg, s, code))
  {
    var e := Join(code, key, id, env);
    var t := Act(cfg, s, Enrolls(e));
    JoinGivesRoute(cfg, s, code, key, id, env);
    ActKeeps(cfg, s, Enrolls(e));
    ActExtends(cfg, s, Enrolls(e));
    ExtendsOn(copy, s.devices, t.devices);
    assert t.devices[|s.devices|] == Device(id, Chosen(cfg, s, code), key);
    PassSparesDevices(cfg, t, xs, existing, copy, |s.devices|);
  }
}
