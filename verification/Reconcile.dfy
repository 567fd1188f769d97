/** Reconciliation of the WireGuard table with the device list: one pass over all devices
    against a snapshot of the table that is not refreshed in between. */
module Reconcile {
  import opened Prelude
  import opened WireGuard
  import opened Enrollment

  /** One `wg set` command. */
  datatype Command = Command(key: string, ip: string)

  /** Devices with distinct keys and distinct addresses, which lie in the /24 of p. */
  ghost predicate Sound(devices: seq<Device>, p: string) {
    Distinct(devices) && forall i :: 0 <= i < |devices| ==> IsHost(p, devices[i].ip)
  }

  /** Key and address can be given to `wg`. */
  predicate Valid(d: Device) { ValidKey(d.key) && IsQuad(d.ip) }

  /** The pass issues a command for this device. */
  predicate Due(existing: string, d: Device) {
    Valid(d) && !Present(existing, d.key, d.ip) && !Conflict(existing, d.key, d.ip)
  }

  function Commands(existing: string, devices: seq<Device>): seq<Command> {
    if devices == [] then []
    else
      var d := devices[|devices| - 1];
      Commands(existing, devices[..|devices| - 1]) + (if Due(existing, d) then [Command(d.key, d.ip)] else [])
  }

  /** The table after the commands, of which those that `works` denies fail. */
  function Apply(t: seq<Peer>, cs: seq<Command>, works: Command -> bool): seq<Peer> {
    if cs == [] then t
    else
      var before, c := Apply(t, cs[..|cs| - 1], works), cs[|cs| - 1];
      if works(c) then SetPeer(before, c.key, c.ip) else before
  }

  /** The pass itself. The snapshot is the text printed before the first command. */
  method Pass(devices: seq<Device>, table: seq<Peer>, works: Command -> bool)
      returns (after: seq<Peer>, issued: seq<Command>)
    ensures issued == Commands(Render(table), devices)
    ensures after == Apply(table, issued, works)
  {
    var existing := Render(table);
    after, issued := table, [];
    var i := 0;
    while i < |devices|
      invariant 0 <= i <= |devices|
      invariant issued == Commands(existing, devices[..i]) && after == Apply(table, issued, works)
    {
      var d := devices[i];
      assert devices[..i + 1][..i] == devices[..i];
      if ValidKey(d.key) && IsQuad(d.ip) {
        var present, conflict := Search(existing, d.key, d.ip);
        assert (present <==> Present(existing, d.key, d.ip)) && (conflict <==> Conflict(existing, d.key, d.ip));
        if !present && !conflict {
          var c := Command(d.key, d.ip);
          assert (issued + [c])[..|issued|] == issued;
          if works(c) {
            after := SetPeer(after, d.key, d.ip);
          }
          issued := issued + [c];
        }
      }
      i := i + 1;
    }
    assert devices[..i] == devices;
  }

  // ---- what the commands are ----

  ghost predicate Issued(devices: seq<Device>, existing: string, c: Command) {
    exists i :: 0 <= i < |devices| && Due(existing, devices[i]) && c == Command(devices[i].key, devices[i].ip)
  }

  lemma {:induction false} CommandsAreDue(existing: string, devices: seq<Device>, c: Command)
    ensures c in Commands(existing, devices) <==> Issued(devices, existing, c)
    decreases |devices|
  {
    if devices != [] {
      CommandsAreDue(existing, devices[..|devices| - 1], c);
      IssuedLast(existing, devices, c);
    }
  }

  lemma IssuedLast(existing: string, devices: seq<Device>, c: Command)
    requires devices != []
    ensures var n := |devices| - 1;
      Issued(devices, existing, c) <==>
      Issued(devices[..n], existing, c) || (Due(existing, devices[n]) && c == Command(devices[n].key, devices[n].ip))
  {
    var was := devices[..|devices| - 1];
    if Issued(was, existing, c) {
      var i :| 0 <= i < |was| && Due(existing, was[i]) && c == Command(was[i].key, was[i].ip);
      assert Due(existing, devices[i]);
    }
    if Issued(devices, existing, c) {
      var i :| 0 <= i < |devices| && Due(existing, devices[i]) && c == Command(devices[i].key, devices[i].ip);
      if i < |was| { assert Due(existing, was[i]); }
    }
  }

  ghost predicate Apart(cs: seq<Command>) {
    forall i, j :: 0 <= i < j < |cs| ==> cs[i].key != cs[j].key && cs[i].ip != cs[j].ip
  }

  lemma {:induction false} CommandsApart(existing: string, devices: seq<Device>)
    requires Distinct(devices)
    ensures Apart(Commands(existing, devices))
    decreases |devices|
  {
    if devices != [] {
      var n := |devices| - 1;
      var d, before := devices[n], Commands(existing, devices[..n]);
      CommandsApart(existing, devices[..n]);
      if Due(existing, d) {
        forall i | 0 <= i < |before| ensures before[i].key != d.key && before[i].ip != d.ip {
          CommandsAreDue(existing, devices[..n], before[i]);
          assert before[i] in before;
        }
      }
    }
  }

  // ---- what the commands do ----

  /** A command of the list that succeeded. */
  ghost predicate Done(cs: seq<Command>, works: Command -> bool, c: Command) { c in cs && works(c) }

  ghost predicate KeyMoved(cs: seq<Command>, works: Command -> bool, key: string) {
    exists c :: Done(cs, works, c) && c.key == key
  }

  ghost predicate AddressMoved(cs: seq<Command>, works: Command -> bool, ip: string) {
    exists c :: Done(cs, works, c) && c.ip == ip
  }

  /** Commands about different keys and addresses do not disturb each other: afterwards an
      address belongs to the key that was given it, or to the owner it had if neither was
      the subject of a command. */
  lemma {:induction false} ApplyOwns(t: seq<Peer>, cs: seq<Command>, works: Command -> bool, k: string, a: string)
    requires Apart(cs)
    ensures Owns(Apply(t, cs, works), k, a) <==>
      Done(cs, works, Command(k, a))
      || (Owns(t, k, a) && !KeyMoved(cs, works, k) && !AddressMoved(cs, works, a))
    decreases |cs|
  {
    if cs != [] {
      var before, last := cs[..|cs| - 1], cs[|cs| - 1];
      ApplyOwns(t, before, works, k, a);
      if works(last) {
        SetOwns(Apply(t, before, works), last.key, last.ip, k, a);
      }
    }
  }

  // ---- one pass, on every table ----

  /** A device is due exactly when it is valid and nobody has its address or one that ends in it. */
  lemma DueMeans(t: seq<Peer>, d: Device)
    requires Listable(t)
    ensures Due(Render(t), d) <==> Valid(d) && !Shadowed(t, d.ip)
  {
    if IsQuad(d.ip) {
      QuadIsPlain(d.ip);
      SearchMeans(t, d.key, d.ip);
      ShadowedMeans(t, d.ip);
    }
  }

  ghost function After(t: seq<Peer>, devices: seq<Device>, works: Command -> bool): seq<Peer> {
    Apply(t, Commands(Render(t), devices), works)
  }

  /** The pass gives the device its address. */
  ghost predicate Given(t: seq<Peer>, d: Device, works: Command -> bool) {
    Valid(d) && !Shadowed(t, d.ip) && works(Command(d.key, d.ip))
  }

  /** It gives some device this key and address. */
  ghost predicate Gives(t: seq<Peer>, devices: seq<Device>, works: Command -> bool, k: string, a: string) {
    exists i :: 0 <= i < |devices| && Given(t, devices[i], works) && devices[i].key == k && devices[i].ip == a
  }

  ghost predicate MovesKey(t: seq<Peer>, devices: seq<Device>, works: Command -> bool, k: string) {
    exists i :: 0 <= i < |devices| && Given(t, devices[i], works) && devices[i].key == k
  }

  lemma DoneMeansGiven(t: seq<Peer>, devices: seq<Device>, works: Command -> bool, k: string, a: string)
    requires Listable(t)
    ensures Done(Commands(Render(t), devices), works, Command(k, a)) <==> Gives(t, devices, works, k, a)
  {
    CommandsAreDue(Render(t), devices, Command(k, a));
    forall i | 0 <= i < |devices|
      ensures Given(t, devices[i], works)
        <==> Due(Render(t), devices[i]) && works(Command(devices[i].key, devices[i].ip))
    {
      DueMeans(t, devices[i]);
    }
  }

  lemma KeyMovedMeans(t: seq<Peer>, devices: seq<Device>, works: Command -> bool, k: string)
    requires Listable(t)
    ensures KeyMoved(Commands(Render(t), devices), works, k) <==> MovesKey(t, devices, works, k)
  {
    var cs := Commands(Render(t), devices);
    if c :| Done(cs, works, c) && c.key == k { DoneMeansGiven(t, devices, works, k, c.ip); }
    if i :| 0 <= i < |devices| && Given(t, devices[i], works) && devices[i].key == k {
      DoneMeansGiven(t, devices, works, k, devices[i].ip);
      assert Gives(t, devices, works, k, devices[i].ip);
    }
  }

  /** Who owns what after a pass, for every table, key and address. */
  lemma PassOwns(t: seq<Peer>, devices: seq<Device>, works: Command -> bool, k: string, a: string)
    requires Listable(t) && Distinct(devices)
    ensures Owns(After(t, devices, works), k, a) <==>
      Gives(t, devices, works, k, a) || (Owns(t, k, a) && !MovesKey(t, devices, works, k))
  {
    var cs := Commands(Render(t), devices);
    CommandsApart(Render(t), devices);
    ApplyOwns(t, cs, works, k, a);
    DoneMeansGiven(t, devices, works, k, a);
    KeyMovedMeans(t, devices, works, k);
    if Owns(t, k, a) && AddressMoved(cs, works, a) {
      var c :| Done(cs, works, c) && c.ip == a;
      DoneMeansGiven(t, devices, works, c.key, a);
      OwnerResembles(t, k, a);
      assert false;
    }
  }

  /** A valid device is routed after the pass if and only if it was before, or its address was
      not shadowed and its command worked. */
  lemma PassRoutes(t: seq<Peer>, devices: seq<Device>, works: Command -> bool, i: nat)
    requires Listable(t) && Distinct(devices) && i < |devices| && Valid(devices[i])
    ensures Owns(After(t, devices, works), devices[i].key, devices[i].ip) <==>
      Owns(t, devices[i].key, devices[i].ip) || Given(t, devices[i], works)
  {
    var d := devices[i];
    PassOwns(t, devices, works, d.key, d.ip);
    OneDevicePerKey(devices, i);
    if Owns(t, d.key, d.ip) { OwnerResembles(t, d.key, d.ip); }
  }

  lemma OneDevicePerKey(devices: seq<Device>, i: nat)
    requires Distinct(devices) && i < |devices| && devices[i].key != ""
    ensures forall j :: 0 <= j < |devices| && devices[j].key == devices[i].key ==> j == i
  {
  }

  /** Some device is given a route although its key already has one elsewhere. */
  ghost predicate MovesAKey(t: seq<Peer>, devices: seq<Device>, works: Command -> bool) {
    exists i :: 0 <= i < |devices| && Given(t, devices[i], works)
      && RoutedElsewhere(t, devices[i].key, devices[i].ip)
  }

  /** A pass changes no existing route if and only if it moves no key. */
  lemma PassKeepsRoutes(t: seq<Peer>, devices: seq<Device>, works: Command -> bool)
    requires Listable(t) && Distinct(devices)
    ensures KeepsOwners(t, After(t, devices, works)) <==> !MovesAKey(t, devices, works)
  {
    if MovesAKey(t, devices, works) {
      var i :| 0 <= i < |devices| && Given(t, devices[i], works)
        && RoutedElsewhere(t, devices[i].key, devices[i].ip);
      var d := devices[i];
      var a :| a != d.ip && Owns(t, d.key, a);
      PassOwns(t, devices, works, d.key, a);
      OneDevicePerKey(devices, i);
    } else {
      forall k, a | Owns(t, k, a) ensures Owns(After(t, devices, works), k, a) {
        PassOwns(t, devices, works, k, a);
        if i :| 0 <= i < |devices| && Given(t, devices[i], works) && devices[i].key == k {
          OwnerResembles(t, k, a);
        }
      }
    }
  }

  // ---- a second pass ----

  lemma WithoutListable(t: seq<Peer>, key: string, ip: string)
    requires Listable(t)
    ensures Listable(Without(t, key, ip))
    decreases |t|
  {
    if t != [] {
      forall i | 0 <= i < |t[1..]| ensures PeerOk(t[1..][i]) { assert t[1..][i] == t[i + 1]; }
      WithoutListable(t[1..], key, ip);
    }
  }

  lemma {:induction false} ApplyListable(t: seq<Peer>, cs: seq<Command>, works: Command -> bool)
    requires Listable(t) && forall c :: c in cs ==> IsKey(c.key) && IsPlain(c.ip)
    ensures Listable(Apply(t, cs, works))
    decreases |cs|
  {
    if cs != [] {
      var c := cs[|cs| - 1];
      ApplyListable(t, cs[..|cs| - 1], works);
      assert c in cs;
      WithoutListable(Apply(t, cs[..|cs| - 1], works), c.key, c.ip);
    }
  }

  lemma AfterListable(t: seq<Peer>, devices: seq<Device>, works: Command -> bool)
    requires Listable(t)
    ensures Listable(After(t, devices, works))
  {
    var cs := Commands(Render(t), devices);
    forall c | c in cs ensures IsKey(c.key) && IsPlain(c.ip) {
      CommandsAreDue(Render(t), devices, c);
      KeysAreListable(c.key);
      QuadIsPlain(c.ip);
    }
    ApplyListable(t, cs, works);
  }

  /** After the pass nobody has the address or one that ends in it: no device was given
      such an address, and every peer that had one gave it up for its device's own. */
  ghost predicate LeftOpen(t: seq<Peer>, devices: seq<Device>, works: Command -> bool, ip: string) {
    && (forall i :: 0 <= i < |devices| && Given(t, devices[i], works) ==> !EndsIn(devices[i].ip, ip))
    && (forall i :: 0 <= i < |t| && Resembles(t[i], ip) ==> MovesKey(t, devices, works, t[i].key))
  }

  lemma ShadowedAfter(t: seq<Peer>, devices: seq<Device>, works: Command -> bool, ip: string)
    requires Listable(t) && Distinct(devices)
    ensures Shadowed(After(t, devices, works), ip) <==> !LeftOpen(t, devices, works, ip)
  {
    var u := After(t, devices, works);
    if i :| 0 <= i < |u| && Resembles(u[i], ip) {
      assert u[i] == Peer(u[i].key, Some(u[i].route.value));
      assert Owns(u, u[i].key, u[i].route.value);
      PassOwns(t, devices, works, u[i].key, u[i].route.value);
    }
    if i :| 0 <= i < |devices| && Given(t, devices[i], works) && EndsIn(devices[i].ip, ip) {
      PassOwns(t, devices, works, devices[i].key, devices[i].ip);
      assert Gives(t, devices, works, devices[i].key, devices[i].ip);
    }
    if i :| 0 <= i < |t| && Resembles(t[i], ip) && !MovesKey(t, devices, works, t[i].key) {
      assert t[i] == Peer(t[i].key, Some(t[i].route.value));
      assert Owns(t, t[i].key, t[i].route.value);
      PassOwns(t, devices, works, t[i].key, t[i].route.value);
    }
  }

  lemma NoneDue(existing: string, devices: seq<Device>)
    ensures Commands(existing, devices) == [] <==> forall i :: 0 <= i < |devices| ==> !Due(existing, devices[i])
  {
    if i :| 0 <= i < |devices| && Due(existing, devices[i]) {
      CommandsAreDue(existing, devices, Command(devices[i].key, devices[i].ip));
    } else if Commands(existing, devices) != [] {
      CommandsAreDue(existing, devices, Commands(existing, devices)[0]);
    }
  }

  /** A second pass is silent if and only if the first left no valid device's address open,
      for every table. */
  lemma SecondPassSilent(t: seq<Peer>, devices: seq<Device>, works: Command -> bool)
    requires Listable(t) && Distinct(devices)
    ensures Commands(Render(After(t, devices, works)), devices) == [] <==>
      forall j :: 0 <= j < |devices| && Valid(devices[j]) ==> !LeftOpen(t, devices, works, devices[j].ip)
  {
    var u := After(t, devices, works);
    AfterListable(t, devices, works);
    NoneDue(Render(u), devices);
    forall j | 0 <= j < |devices|
      ensures Due(Render(u), devices[j]) <==> Valid(devices[j]) && LeftOpen(t, devices, works, devices[j].ip)
    {
      DueMeans(u, devices[j]);
      ShadowedAfter(t, devices, works, devices[j].ip);
    }
  }

  // ---- in one /24 ----

  lemma GivenHost(t: seq<Peer>, p: string, devices: seq<Device>, works: Command -> bool, i: nat)
    requires IsPrefix(p) && InNetwork(t, p) && Sound(devices, p) && i < |devices|
    ensures Valid(devices[i]) <==> ValidKey(devices[i].key)
    ensures Given(t, devices[i], works) <==>
      ValidKey(devices[i].key) && Unowned(t, devices[i].ip) && works(Command(devices[i].key, devices[i].ip))
  {
    var n: nat :| n <= 255 && devices[i].ip == Address(p, n);
    HostIsQuad(p, n);
    ShadowedHost(t, p, n);
  }

  /** The key of one device has the address of another, and gives it up for its own. */
  ghost predicate FreesADevice(t: seq<Peer>, devices: seq<Device>, works: Command -> bool) {
    exists i, j :: 0 <= i < |devices| && 0 <= j < |devices|
      && ValidKey(devices[i].key) && ValidKey(devices[j].key) && works(Command(devices[i].key, devices[i].ip))
      && Unowned(t, devices[i].ip) && Owns(t, devices[i].key, devices[j].ip)
  }

  /** The command for some device failed. */
  ghost predicate LeavesADevice(t: seq<Peer>, devices: seq<Device>, works: Command -> bool) {
    exists i :: 0 <= i < |devices| && ValidKey(devices[i].key) && Unowned(t, devices[i].ip)
      && !works(Command(devices[i].key, devices[i].ip))
  }

  /** The addresses of two hosts of the /24 do not end in each other. */
  lemma HostEnds(p: string, a: string, b: string)
    requires IsPrefix(p) && IsHost(p, a) && IsHost(p, b)
    ensures EndsIn(a, b) <==> a == b
  {
    var m: nat :| m <= 255 && a == Address(p, m);
    var n: nat :| n <= 255 && b == Address(p, n);
    HostsApart(p, m, n);
    if a == b { AddressInjective(p, m, n); }
  }

  /** A device's address is left open if its command failed, or if its owner was moved away. */
  lemma LeftOpenHost(t: seq<Peer>, p: string, devices: seq<Device>, works: Command -> bool, j: nat)
    requires IsPrefix(p) && InNetwork(t, p) && Consistent(t) && Sound(devices, p)
    requires j < |devices| && ValidKey(devices[j].key)
    ensures LeftOpen(t, devices, works, devices[j].ip) <==>
      (Unowned(t, devices[j].ip) && !works(Command(devices[j].key, devices[j].ip)))
      || exists k :: Owns(t, k, devices[j].ip) && MovesKey(t, devices, works, k)
  {
    var a := devices[j].ip;
    forall i | 0 <= i < |devices| ensures EndsIn(devices[i].ip, a) <==> i == j {
      HostEnds(p, devices[i].ip, a);
    }
    GivenHost(t, p, devices, works, j);
    forall i | 0 <= i < |t| ensures Resembles(t[i], a) <==> t[i].route == Some(a) {
      if t[i].route.Some? { HostEnds(p, t[i].route.value, a); }
    }
    if k :| Owns(t, k, a) {
      forall i | 0 <= i < |t| && Resembles(t[i], a) ensures t[i].key == k {
        assert t[i] == Peer(t[i].key, Some(a));
      }
      var i :| 0 <= i < |t| && t[i] == Peer(k, Some(a));
      assert Resembles(t[i], a);
    } else {
      forall i | 0 <= i < |t| ensures !Resembles(t[i], a) {
        if t[i].route == Some(a) {
          assert t[i] == Peer(t[i].key, Some(a));
          assert Owns(t, t[i].key, a);
        }
      }
    }
  }

  /** In a table of one /24 a second pass is silent if and only if in the first one no command
      failed and no device's key gave up the address of another device. */
  lemma SecondPassInNetwork(t: seq<Peer>, p: string, devices: seq<Device>, works: Command -> bool)
    requires IsPrefix(p) && InNetwork(t, p) && Consistent(t) && Sound(devices, p)
    ensures Commands(Render(After(t, devices, works)), devices) == [] <==>
      !FreesADevice(t, devices, works) && !LeavesADevice(t, devices, works)
  {
    NetworkIsListable(t, p);
    SecondPassSilent(t, devices, works);
    forall i | 0 <= i < |devices|
      ensures Valid(devices[i]) <==> ValidKey(devices[i].key)
      ensures Given(t, devices[i], works) <==>
        ValidKey(devices[i].key) && Unowned(t, devices[i].ip) && works(Command(devices[i].key, devices[i].ip))
    {
      GivenHost(t, p, devices, works, i);
    }
    forall j | 0 <= j < |devices| && ValidKey(devices[j].key)
      ensures LeftOpen(t, devices, works, devices[j].ip) <==>
        (Unowned(t, devices[j].ip) && !works(Command(devices[j].key, devices[j].ip)))
        || exists k :: Owns(t, k, devices[j].ip) && MovesKey(t, devices, works, k)
    {
      LeftOpenHost(t, p, devices, works, j);
    }
  }

  /** The condition does fail: a first device without a route whose key has the address of a
      second one. The pass moves the key, and the next pass has to route the second. */
  lemma KeysMayMove(p: string, a: string, b: string, works: Command -> bool)
    requires IsPrefix(p) && ValidKey(a) && ValidKey(b) && a != b && works(Command(a, Address(p, 2)))
    ensures var t := [Peer(a, Some(Address(p, 3)))];
      var devices := [Device("a", Address(p, 2), a), Device("b", Address(p, 3), b)];
      && Sound(devices, p) && InNetwork(t, p) && Consistent(t)
      && !KeepsOwners(t, After(t, devices, works))
      && Commands(Render(After(t, devices, works)), devices) != []
  {
    var t := [Peer(a, Some(Address(p, 3)))];
    var devices := [Device("a", Address(p, 2), a), Device("b", Address(p, 3), b)];
    if Address(p, 2) == Address(p, 3) { AddressInjective(p, 2, 3); }
    KeysAreListable(a);
    assert IsHost(p, devices[0].ip) && IsHost(p, devices[1].ip);
    assert Unowned(t, devices[0].ip);
    assert t[0] == Peer(devices[0].key, Some(devices[1].ip));
    assert Owns(t, devices[0].key, devices[1].ip);
    assert Sound(devices, p);
    assert FreesADevice(t, devices, works);
    assert RoutedElsewhere(t, devices[0].key, devices[0].ip);
    GivenHost(t, p, devices, works, 0);
    NetworkIsListable(t, p);
    PassKeepsRoutes(t, devices, works);
    SecondPassInNetwork(t, p, devices, works);
  }
}
