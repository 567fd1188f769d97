/** Enrollment: one-time codes, the choice of a device's address, adoption of existing
    WireGuard peers, and the join handler with everything that can fail in it. */
module Enrollment {
  import opened Prelude
  import opened Base64
  import opened WireGuard

  const CODE_LIFETIME := 600   // seconds
  const MAX_CODES := 100

  datatype Device = Device(id: string, ip: string, key: string)

  /** The part of the configuration that matters here: the first three octets of the
      network address as text, its last octet, the length of its mask, and the server. */
  datatype Config = Config(prefix: string, host: nat, bits: nat, serverIP: string)

  datatype Enr = Enr(issued: int, expires: int, ip: string)

  // ---- choosing an address ----

  function BlockSize(bits: nat): nat
    requires bits <= 32
    ensures BlockSize(bits) > 0
    decreases 32 - bits
  {
    if bits == 32 then 1 else 2 * BlockSize(bits + 1)
  }

  /** Does the network contain host n of its own /24? */
  predicate Inside(cfg: Config, n: nat) {
    cfg.bits <= 24 || (cfg.bits <= 32 && n / BlockSize(cfg.bits) == cfg.host / BlockSize(cfg.bits))
  }

  /** A host is inside if it agrees with the network's address in the bits of the mask: in all of them up
      to the last octet, and there in blocks of 128, 64 and so on down to the one host of a /32. */
  lemma InsideMeans(cfg: Config, n: nat)
    ensures cfg.bits <= 24 ==> Inside(cfg, n)
    ensures 25 <= cfg.bits <= 32 ==>
      var size := [128, 64, 32, 16, 8, 4, 2, 1][cfg.bits - 25];
      Inside(cfg, n) <==> n / size == cfg.host / size
    ensures cfg.bits > 32 ==> !Inside(cfg, n)
  {
    if 25 <= cfg.bits <= 32 { BlockSizes(cfg.bits); }
  }

  lemma BlockSizes(bits: nat)
    requires 25 <= bits <= 32
    ensures BlockSize(bits) == [128, 64, 32, 16, 8, 4, 2, 1][bits - 25]
  {
    assert BlockSize(32) == 1 && BlockSize(31) == 2 && BlockSize(30) == 4 && BlockSize(29) == 8;
    assert BlockSize(28) == 16 && BlockSize(27) == 32 && BlockSize(26) == 64 && BlockSize(25) == 128;
  }

  predicate HasIP(devices: seq<Device>, ip: string) { exists i :: 0 <= i < |devices| && devices[i].ip == ip }

  predicate HasKey(devices: seq<Device>, key: string) { exists i :: 0 <= i < |devices| && devices[i].key == key }

  /** The test the handler makes for one candidate, on the text of the peer table. */
  predicate Candidate(cfg: Config, existing: string, devices: seq<Device>, n: nat) {
    var ip := Address(cfg.prefix, n);
    && !Contains(existing, Route(ip)) && ip != cfg.serverIP && !HasIP(devices, ip)
    && Inside(cfg, n)
  }

  function FirstCandidate(cfg: Config, existing: string, devices: seq<Device>, n: nat): (r: Option<nat>)
    ensures r.Some? ==> n <= r.value < 255 && Candidate(cfg, existing, devices, r.value)
    ensures forall m :: n <= m < (if r.Some? then r.value else 255) ==> !Candidate(cfg, existing, devices, m)
    decreases 255 - n
  {
    if n >= 255 then None
    else if Candidate(cfg, existing, devices, n) then Some(n)
    else FirstCandidate(cfg, existing, devices, n + 1)
  }

  /** Does a device have this address? */
  method InUse(devices: seq<Device>, ip: string) returns (used: bool)
    ensures used <==> HasIP(devices, ip)
  {
    used := false;
    var i := 0;
    while i < |devices|
      invariant 0 <= i <= |devices|
      invariant used <==> exists j :: 0 <= j < i && devices[j].ip == ip
    {
      used := used || devices[i].ip == ip;
      i := i + 1;
    }
  }

  /** The loop over the hosts 2 to 254. */
  method Allocate(cfg: Config, existing: string, devices: seq<Device>) returns (ip: string)
    ensures var r := FirstCandidate(cfg, existing, devices, 2);
      ip == if r.Some? then Address(cfg.prefix, r.value) else ""
  {
    ip := "";
    var n := 2;
    while n < 255
      invariant 2 <= n <= 255
      invariant FirstCandidate(cfg, existing, devices, 2) == FirstCandidate(cfg, existing, devices, n)
    {
      var candidate := Address(cfg.prefix, n);
      var used := InUse(devices, candidate);
      used := used || Contains(existing, Route(candidate)) || candidate == cfg.serverIP;
      if !used && Inside(cfg, n) {
        return candidate;
      }
      n := n + 1;
    }
  }

  /** Host n is free: no peer has its address, nor the server, nor a device. */
  ghost predicate Free(cfg: Config, t: seq<Peer>, devices: seq<Device>, n: nat) {
    var ip := Address(cfg.prefix, n);
    Unowned(t, ip) && ip != cfg.serverIP && !HasIP(devices, ip) && Inside(cfg, n)
  }

  /** For every table: a host is a candidate if and only if it is free and no peer has another
      address that ends in its own. */
  lemma CandidateMeans(cfg: Config, t: seq<Peer>, devices: seq<Device>, n: nat)
    requires IsPrefix(cfg.prefix) && Listable(t)
    ensures Candidate(cfg, Render(t), devices, n) <==>
      Free(cfg, t, devices, n) && !Mistaken(t, Address(cfg.prefix, n))
  {
    var ip := Address(cfg.prefix, n);
    AddressIsPlain(cfg.prefix, n);
    RenderContains(t, ip);
    ShadowedMeans(t, ip);
  }

  /** The automatic address is the least candidate, there is none exactly when no host is one,
      and no peer can be adopted for it, whatever is in the table. */
  lemma AllocationIsLeastCandidate(cfg: Config, t: seq<Peer>, devices: seq<Device>, key: string)
    requires IsPrefix(cfg.prefix) && Listable(t)
    ensures var r := FirstCandidate(cfg, Render(t), devices, 2);
      && (r.Some? ==>
           && 2 <= r.value < 255 && Free(cfg, t, devices, r.value)
           && (forall m :: 2 <= m < r.value && Free(cfg, t, devices, m) ==> Mistaken(t, Address(cfg.prefix, m)))
           && !Present(Render(t), key, Address(cfg.prefix, r.value))
           && !Conflict(Render(t), key, Address(cfg.prefix, r.value)))
      && (r.None? <==>
           forall m :: 2 <= m < 255 && Free(cfg, t, devices, m) ==> Mistaken(t, Address(cfg.prefix, m)))
  {
    forall n: nat
      ensures Candidate(cfg, Render(t), devices, n) <==>
        Free(cfg, t, devices, n) && !Mistaken(t, Address(cfg.prefix, n))
    {
      CandidateMeans(cfg, t, devices, n);
    }
    var r := FirstCandidate(cfg, Render(t), devices, 2);
    if r.Some? {
      var ip := Address(cfg.prefix, r.value);
      AddressIsPlain(cfg.prefix, r.value);
      SearchMeans(t, key, ip);
      ShadowedMeans(t, ip);
    }
  }

  /** In a table of one /24 it is the least free host of 2 to 254. */
  lemma AllocationIsLeastFree(cfg: Config, t: seq<Peer>, devices: seq<Device>, key: string)
    requires IsPrefix(cfg.prefix) && InNetwork(t, cfg.prefix)
    ensures var r := FirstCandidate(cfg, Render(t), devices, 2);
      && (r.Some? ==>
           && 2 <= r.value < 255 && Free(cfg, t, devices, r.value)
           && (forall m :: 2 <= m < r.value ==> !Free(cfg, t, devices, m))
           && !Present(Render(t), key, Address(cfg.prefix, r.value))
           && !Conflict(Render(t), key, Address(cfg.prefix, r.value)))
      && (r.None? <==> forall m :: 2 <= m < 255 ==> !Free(cfg, t, devices, m))
  {
    NetworkIsListable(t, cfg.prefix);
    AllocationIsLeastCandidate(cfg, t, devices, key);
    forall m: nat ensures !Mistaken(t, Address(cfg.prefix, m)) { HostsUnmistaken(t, cfg.prefix, m); }
  }

  // ---- the server's state ----

  /** How a device came in. */
  datatype Entry = Entry(code: string, at: int)

  datatype State = State(
    now: int,
    codes: map<string, Enr>,
    devices: seq<Device>,
    table: seq<Peer>,
    issued: map<string, int>,       // every code ever issued, and when
    joined: map<string, Entry>)     // by device id

  /** What can fail while a device joins. */
  datatype Env = Env(showOk: bool, setOk: bool, saveOk: bool, removeOk: bool)

  datatype Event =
    | Tick(seconds: nat)
    | CreateCode(token: string, ip: string, inside: bool)  // inside: a requested address is in the network
    | Join(code: string, key: string, id: string, env: Env)

  predicate ValidKey(k: string) { Decode(k).Some? && |Decode(k).value| == 32 }

  function Live(codes: map<string, Enr>, now: int): map<string, Enr> {
    map c | c in codes && now <= codes[c].expires :: codes[c]
  }

  function CreateStep(cfg: Config, s: State, token: string, ip: string, inside: bool): State {
    if ip != "" && (!inside || ip == cfg.serverIP) then s else
    var live := Live(s.codes, s.now);
    if |live| >= MAX_CODES || token in s.issued then s.(codes := live)
    else s.(codes := live[token := Enr(s.now, s.now + CODE_LIFETIME, ip)], issued := s.issued[token := s.now])
  }

  /** The code exists, is not expired, and neither its address nor the key is taken. */
  predicate Admissible(s: State, code: string, key: string) {
    && ValidKey(key)
    && code in s.codes && s.now <= s.codes[code].expires
    && !HasKey(s.devices, key)
    && (s.codes[code].ip != "" ==> !HasIP(s.devices, s.codes[code].ip))
  }

  /** The requested address, or an automatic one. */
  function Chosen(cfg: Config, s: State, code: string): string
    requires code in s.codes
  {
    if s.codes[code].ip != "" then s.codes[code].ip else
      var r := FirstCandidate(cfg, Render(s.table), s.devices, 2);
      if r.Some? then Address(cfg.prefix, r.value) else ""
  }

  /** The join gets as far as creating the device; another key on the address stops it. */
  predicate Proceeds(cfg: Config, s: State, code: string, key: string, env: Env) {
    && Admissible(s, code, key) && env.showOk && Chosen(cfg, s, code) != ""
    && !Conflict(Render(s.table), key, Chosen(cfg, s, code))
    && (Present(Render(s.table), key, Chosen(cfg, s, code)) || env.setOk)
  }

  function JoinStep(cfg: Config, s: State, code: string, key: string, id: string, env: Env): State {
    if !Proceeds(cfg, s, code, key, env) then s else
    var ip := Chosen(cfg, s, code);
    var adopted := Present(Render(s.table), key, ip);
    var table := if adopted then s.table else SetPeer(s.table, key, ip);
    if env.saveOk then
      s.(devices := s.devices + [Device(id, ip, key)], table := table, codes := s.codes - {code},
         joined := s.joined[id := Entry(code, s.now)])
    else s.(table := if adopted || !env.removeOk then table else RemovePeer(table, key))
  }

  predicate HasId(devices: seq<Device>, id: string) { exists i :: 0 <= i < |devices| && devices[i].id == id }

  function Step(cfg: Config, s: State, e: Event): State {
    match e
    case Tick(n) => s.(now := s.now + n)
    case CreateCode(token, ip, inside) => CreateStep(cfg, s, token, ip, inside)
    case Join(code, key, id, env) =>
      if HasId(s.devices, id) || id in s.joined then s else JoinStep(cfg, s, code, key, id, env)
  }

  function ExecFrom(cfg: Config, s: State, events: seq<Event>): State
    decreases |events|
  {
    if events == [] then s else ExecFrom(cfg, Step(cfg, s, events[0]), events[1..])
  }

  // ---- what every run keeps ----

  ghost predicate Distinct(devices: seq<Device>) {
    forall i, j :: 0 <= i < j < |devices| ==>
      && devices[i].id != devices[j].id && devices[i].ip != devices[j].ip
      && (devices[i].key != "" || devices[j].key != "" ==> devices[i].key != devices[j].key)
  }

  ghost predicate CodeOk(s: State, c: string) {
    c in s.codes ==>
      && c in s.issued && s.codes[c].issued == s.issued[c] && s.codes[c].expires == s.issued[c] + CODE_LIFETIME
      && forall id :: id in s.joined ==> s.joined[id].code != c
  }

  ghost predicate EntryOk(s: State, id: string) {
    id in s.joined ==> s.joined[id].code in s.issued && s.joined[id].at <= s.issued[s.joined[id].code] + CODE_LIFETIME
                       && s.issued[s.joined[id].code] <= s.joined[id].at
  }

  ghost predicate Inv(s: State) {
    && Distinct(s.devices)
    && |s.codes| <= MAX_CODES
    && (forall c :: c in s.issued ==> s.issued[c] <= s.now)
    && (forall c :: CodeOk(s, c))
    && (forall id :: EntryOk(s, id))
    && (forall id, id' :: id in s.joined && id' in s.joined && id != id' ==> s.joined[id].code != s.joined[id'].code)
  }

  lemma CreateCodeOk(cfg: Config, s: State, token: string, ip: string, inside: bool, c: string)
    requires Inv(s)
    ensures CodeOk(CreateStep(cfg, s, token, ip, inside), c)
  {
    var t := CreateStep(cfg, s, token, ip, inside);
    assert CodeOk(s, c);
    forall id | id in t.joined ensures c in t.codes ==> t.joined[id].code != c { assert EntryOk(s, id); }
  }

  lemma CreateSize(cfg: Config, s: State, token: string, ip: string, inside: bool)
    requires |s.codes| <= MAX_CODES
    ensures |CreateStep(cfg, s, token, ip, inside).codes| <= MAX_CODES
  {
    var live := Live(s.codes, s.now);
    SubsetSize(live.Keys, s.codes.Keys);
    assert live[token := Enr(s.now, s.now + CODE_LIFETIME, ip)].Keys == live.Keys + {token};
  }

  lemma CreateKeeps(cfg: Config, s: State, token: string, ip: string, inside: bool)
    requires Inv(s)
    ensures Inv(CreateStep(cfg, s, token, ip, inside))
  {
    var t := CreateStep(cfg, s, token, ip, inside);
    CreateSize(cfg, s, token, ip, inside);
    forall c ensures CodeOk(t, c) { CreateCodeOk(cfg, s, token, ip, inside, c); }
    forall id ensures EntryOk(t, id) { assert EntryOk(s, id); }
  }

  /** What a successful join makes of the state. */
  ghost function Joined(s: State, code: string, d: Device, table: seq<Peer>): State {
    s.(devices := s.devices + [d], table := table, codes := s.codes - {code},
       joined := s.joined[d.id := Entry(code, s.now)])
  }

  lemma JoinedKeeps(s: State, code: string, d: Device, table: seq<Peer>)
    requires Inv(s) && d.id !in s.joined && Distinct(s.devices + [d])
    requires code in s.codes && s.now <= s.codes[code].expires
    ensures Inv(Joined(s, code, d, table))
  {
    var t := Joined(s, code, d, table);
    assert CodeOk(s, code);
    assert t.codes.Keys == s.codes.Keys - {code};
    SubsetSize(t.codes.Keys, s.codes.Keys);
    forall c ensures CodeOk(t, c) { assert CodeOk(s, c); }
    forall x ensures EntryOk(t, x) { assert EntryOk(s, x); }
  }

  lemma JoinKeeps(cfg: Config, s: State, code: string, key: string, id: string, env: Env)
    requires Inv(s) && !HasId(s.devices, id) && id !in s.joined
    ensures Inv(JoinStep(cfg, s, code, key, id, env))
  {
    var t := JoinStep(cfg, s, code, key, id, env);
    if Proceeds(cfg, s, code, key, env) && env.saveOk {
      var d := Device(id, Chosen(cfg, s, code), key);
      JoinedKeeps(s, code, d, t.table);
      assert t == Joined(s, code, d, t.table);
    } else {
      forall c ensures CodeOk(t, c) { assert CodeOk(s, c); }
      forall x ensures EntryOk(t, x) { assert EntryOk(s, x); }
    }
  }

  lemma StepKeeps(cfg: Config, s: State, e: Event)
    requires Inv(s)
    ensures Inv(Step(cfg, s, e))
  {
    match e {
      case Tick(n) =>
        forall c ensures CodeOk(Step(cfg, s, e), c) { assert CodeOk(s, c); }
        forall x ensures EntryOk(Step(cfg, s, e), x) { assert EntryOk(s, x); }
      case CreateCode(token, ip, inside) => CreateKeeps(cfg, s, token, ip, inside);
      case Join(code, key, id, env) =>
        if !HasId(s.devices, id) && id !in s.joined { JoinKeeps(cfg, s, code, key, id, env); }
    }
  }

  lemma {:induction false} RunKeeps(cfg: Config, s: State, events: seq<Event>)
    requires Inv(s)
    ensures Inv(ExecFrom(cfg, s, events))
    decreases |events|
  {
    if events != [] {
      StepKeeps(cfg, s, events[0]);
      RunKeeps(cfg, Step(cfg, s, events[0]), events[1..]);
    }
  }

  /** The device list only grows, and exactly by the devices that joined. */
  ghost predicate Grown(devices: seq<Device>, joined: map<string, Entry>, s: State) {
    && |devices| <= |s.devices| && s.devices[..|devices|] == devices
    && (forall i :: |devices| <= i < |s.devices| ==> s.devices[i].id in s.joined)
    && joined.Keys <= s.joined.Keys
  }

  lemma {:induction false} RunGrows(cfg: Config, s: State, events: seq<Event>)
    ensures Grown(s.devices, s.joined, ExecFrom(cfg, s, events))
    decreases |events|
  {
    if events != [] {
      var t := Step(cfg, s, events[0]);
      assert t.devices == s.devices || (|t.devices| == |s.devices| + 1 && t.devices[..|s.devices|] == s.devices
        && t.devices[|s.devices|].id in t.joined);
      RunGrows(cfg, t, events[1..]);
      var u := ExecFrom(cfg, t, events[1..]);
      assert u.devices[..|s.devices|] == u.devices[..|t.devices|][..|s.devices|];
    }
  }

  /** Whatever is requested, fails and expires: addresses, ids and keys stay distinct as
      strings; every device that joined used a code of its own, issued at most ten minutes
      before; at most 100 codes are pending; and a code that was used is gone. */
  lemma EveryRunEnrollsSafely(cfg: Config, devices: seq<Device>, table: seq<Peer>, now: int, events: seq<Event>)
    requires Distinct(devices)
    ensures var s := ExecFrom(cfg, State(now, map[], devices, table, map[], map[]), events);
      && Distinct(s.devices) && Grown(devices, map[], s)
      && |s.codes| <= 100
      && (forall id :: id in s.joined ==>
           && s.joined[id].code in s.issued && s.joined[id].code !in s.codes
           && 0 <= s.joined[id].at - s.issued[s.joined[id].code] <= 600)
      && (forall id, id' :: id in s.joined && id' in s.joined && id != id' ==> s.joined[id].code != s.joined[id'].code)
  {
    var s0 := State(now, map[], devices, table, map[], map[]);
    RunKeeps(cfg, s0, events);
    RunGrows(cfg, s0, events);
    var s := ExecFrom(cfg, s0, events);
    forall id | id in s.joined
      ensures s.joined[id].code in s.issued && s.joined[id].code !in s.codes
      ensures 0 <= s.joined[id].at - s.issued[s.joined[id].code] <= 600
    {
      assert EntryOk(s, id) && CodeOk(s, s.joined[id].code);
    }
  }

  // ---- routes ----

  /** The joining key already routes some other address. */
  ghost predicate RoutedElsewhere(t: seq<Peer>, key: string, ip: string) {
    exists a :: a != ip && Owns(t, key, a)
  }

  ghost predicate KeepsOwners(t: seq<Peer>, t': seq<Peer>) {
    forall k, a :: Owns(t, k, a) ==> Owns(t', k, a)
  }

  /** The handler talks to WireGuard about the key: it went on without adopting. */
  ghost predicate Sets(cfg: Config, s: State, code: string, key: string, env: Env) {
    && Proceeds(cfg, s, code, key, env)
    && !Present(Render(s.table), key, Chosen(cfg, s, code))
  }

  lemma SetKeepsOwners(t: seq<Peer>, key: string, ip: string)
    requires Listable(t) && IsPlain(ip)
    requires !Conflict(Render(t), key, ip) && !Present(Render(t), key, ip)
    ensures KeepsOwners(t, SetPeer(t, key, ip)) <==> !RoutedElsewhere(t, key, ip)
    ensures KeepsOwners(t, RemovePeer(SetPeer(t, key, ip), key)) <==> !RoutedElsewhere(t, key, ip)
  {
    SearchMeans(t, key, ip);
    ShadowedMeans(t, ip);
    var u := SetPeer(t, key, ip);
    forall k, a
      ensures Owns(u, k, a) <==> (k == key && a == ip) || (k != key && a != ip && Owns(t, k, a))
      ensures Owns(RemovePeer(u, key), k, a) <==> k != key && Owns(u, k, a)
    {
      SetOwns(t, key, ip, k, a);
      RemoveOwns(u, key, k, a);
    }
    forall k ensures !Owns(t, k, ip) { }
    if a :| a != ip && Owns(t, key, a) {
      assert !Owns(u, key, a) && !Owns(RemovePeer(u, key), key, a);
    }
  }

  /** A join takes nobody's address away if and only if it does not set a key that is already
      in the table under another address. */
  lemma JoinKeepsRoutes(cfg: Config, s: State, code: string, key: string, id: string, env: Env)
    requires Listable(s.table) && code in s.codes && IsPlain(Chosen(cfg, s, code))
    ensures KeepsOwners(s.table, JoinStep(cfg, s, code, key, id, env).table) <==>
      !(Sets(cfg, s, code, key, env) && RoutedElsewhere(s.table, key, Chosen(cfg, s, code)))
  {
    if Sets(cfg, s, code, key, env) {
      SetKeepsOwners(s.table, key, Chosen(cfg, s, code));
    }
  }

  /** The key's own peer has another address that ends in ip, which the handler takes for it. */
  ghost predicate LooksAdopted(t: seq<Peer>, key: string, ip: string) {
    exists i :: 0 <= i < |t| && t[i].key == key && Resembles(t[i], ip) && t[i].route.value != ip
  }

  /** A join that succeeds leaves the key as the owner of the device's address if and only if
      its peer was not taken for adopted because of another address. */
  lemma JoinGivesRoute(cfg: Config, s: State, code: string, key: string, id: string, env: Env)
    requires Listable(s.table) && Consistent(s.table)
    requires Proceeds(cfg, s, code, key, env) && env.saveOk && IsPlain(Chosen(cfg, s, code))
    ensures Owns(JoinStep(cfg, s, code, key, id, env).table, key, Chosen(cfg, s, code)) <==>
      !LooksAdopted(s.table, key, Chosen(cfg, s, code))
  {
    var t, ip := s.table, Chosen(cfg, s, code);
    SearchMeans(t, key, ip);
    SetOwns(t, key, ip, key, ip);
    if LooksAdopted(t, key, ip) {
      var i :| 0 <= i < |t| && t[i].key == key && Resembles(t[i], ip) && t[i].route.value != ip;
      OneRoute(t, i, ip);
    } else if SeemsOwner(t, key, ip) {
      var i :| 0 <= i < |t| && t[i].key == key && Resembles(t[i], ip);
      assert t[i] == Peer(key, Some(ip));
    }
  }

  /** In a table of one /24 it always is. */
  lemma JoinGivesHost(cfg: Config, s: State, code: string, key: string, id: string, env: Env)
    requires IsPrefix(cfg.prefix) && InNetwork(s.table, cfg.prefix) && Consistent(s.table)
    requires Proceeds(cfg, s, code, key, env) && env.saveOk && IsHost(cfg.prefix, Chosen(cfg, s, code))
    ensures Owns(JoinStep(cfg, s, code, key, id, env).table, key, Chosen(cfg, s, code))
  {
    var n: nat :| n <= 255 && Chosen(cfg, s, code) == Address(cfg.prefix, n);
    NetworkIsListable(s.table, cfg.prefix);
    AddressIsPlain(cfg.prefix, n);
    HostsUnmistaken(s.table, cfg.prefix, n);
    JoinGivesRoute(cfg, s, code, key, id, env);
  }

  /** A failed save takes the route back that the join had set, and the rest of the state is as before;
      the other keys have what they had, but for the address. */
  lemma FailedSaveTakesRouteBack(cfg: Config, s: State, code: string, key: string, id: string, env: Env)
    requires Sets(cfg, s, code, key, env) && !env.saveOk && env.removeOk
    ensures var t := JoinStep(cfg, s, code, key, id, env);
      && t == s.(table := t.table)
      && forall k, a :: Owns(t.table, k, a) <==> k != key && a != Chosen(cfg, s, code) && Owns(s.table, k, a)
  {
    var ip := Chosen(cfg, s, code);
    forall k, a
      ensures Owns(RemovePeer(SetPeer(s.table, key, ip), key), k, a) <==> k != key && a != ip && Owns(s.table, k, a)
    {
      SetOwns(s.table, key, ip, k, a);
      RemoveOwns(SetPeer(s.table, key, ip), key, k, a);
    }
  }

  // ---- a code is good for one device ----

  /** The codes that can still be used. */
  ghost function Unexpired(codes: map<string, Enr>, now: int): set<string> {
    set c | c in codes && now <= codes[c].expires
  }

  lemma LiveMeans(codes: map<string, Enr>, now: int)
    ensures Live(codes, now).Keys == Unexpired(codes, now) && |Live(codes, now)| == |Unexpired(codes, now)|
    ensures forall c :: c in Live(codes, now) ==> Live(codes, now)[c] == codes[c]
  {
    assert |Live(codes, now)| == |Live(codes, now).Keys|;
  }

  /** A code for an automatic address, or for one that is inside the network and not the server's, is
      issued while fewer than 100 can be used; the expired ones go on the way. */
  lemma CodeIsIssued(cfg: Config, s: State, token: string, ip: string, inside: bool)
    requires token !in s.issued && |Unexpired(s.codes, s.now)| < 100
    requires ip == "" || (inside && ip != cfg.serverIP)
    ensures var t := CreateStep(cfg, s, token, ip, inside);
      && t == s.(codes := t.codes, issued := s.issued[token := s.now])
      && t.codes.Keys == Unexpired(s.codes, s.now) + {token} && t.codes[token] == Enr(s.now, s.now + 600, ip)
      && forall c :: c in t.codes && c != token ==> t.codes[c] == s.codes[c]
  {
    LiveMeans(s.codes, s.now);
  }

  /** With 100 that can be used, none is issued. */
  lemma NoCodeIsIssued(cfg: Config, s: State, token: string, ip: string, inside: bool)
    requires |Unexpired(s.codes, s.now)| >= 100 || (ip != "" && (!inside || ip == cfg.serverIP))
    ensures var t := CreateStep(cfg, s, token, ip, inside);
      && t == s.(codes := t.codes) && t.codes.Keys <= s.codes.Keys && Unexpired(s.codes, s.now) <= t.codes.Keys
  {
    LiveMeans(s.codes, s.now);
  }

  lemma ThreeEvents(cfg: Config, s: State, e: Event, f: Event, g: Event)
    ensures ExecFrom(cfg, s, [e, f, g]) == Step(cfg, Step(cfg, Step(cfg, s, e), f), g)
  {
    assert [e, f, g][1..] == [f, g] && [f, g][1..] == [g] && [g][1..] == [];
    assert ExecFrom(cfg, Step(cfg, s, e), [f, g]) == ExecFrom(cfg, Step(cfg, Step(cfg, s, e), f), [g]);
  }

  /** What a device needs to join with a fresh code and an automatic address, when nothing fails. */
  ghost predicate MayEnroll(cfg: Config, s: State, token: string, key: string, id: string) {
    && IsPrefix(cfg.prefix) && InNetwork(s.table, cfg.prefix) && Consistent(s.table)
    && token !in s.issued && |Unexpired(s.codes, s.now)| < 100
    && Decode(key).Some? && |Decode(key).value| == 32 && !HasKey(s.devices, key)
    && !HasId(s.devices, id) && id !in s.joined
    && SomeFree(cfg, s.table, s.devices)
  }

  ghost predicate SomeFree(cfg: Config, t: seq<Peer>, devices: seq<Device>) {
    exists n :: 2 <= n < 255 && Free(cfg, t, devices, n)
  }

  /** The least free host. */
  ghost predicate IsLeastFree(cfg: Config, t: seq<Peer>, devices: seq<Device>, n: nat) {
    2 <= n < 255 && Free(cfg, t, devices, n) && forall m :: 2 <= m < n ==> !Free(cfg, t, devices, m)
  }

  /** The device has come in at this address, and has its route; the code is used up. */
  ghost predicate CameIn(s: State, t: State, code: string, d: Device, at: int) {
    && t.devices == s.devices + [d] && Owns(t.table, d.key, d.ip)
    && code !in t.codes && t.joined == s.joined[d.id := Entry(code, at)]
  }

  /** Within ten minutes such a device gets the least free host of the network, its key has the route, and
      the code is used up; later nothing happens. */
  lemma FreshCodeEnrolls(cfg: Config, s: State, token: string, key: string, id: string, wait: nat) returns (n: nat)
    requires MayEnroll(cfg, s, token, key, id)
    ensures IsLeastFree(cfg, s.table, s.devices, n)
    ensures var t := ExecFrom(cfg, s, [CreateCode(token, "", true), Tick(wait), Join(token, key, id, WORKS)]);
      if wait <= 600 then CameIn(s, t, token, Device(id, Address(cfg.prefix, n), key), s.now + wait)
      else t.devices == s.devices && t.table == s.table && t.joined == s.joined
  {
    ThreeEvents(cfg, s, CreateCode(token, "", true), Tick(wait), Join(token, key, id, WORKS));
    var u := Step(cfg, Step(cfg, s, CreateCode(token, "", true)), Tick(wait));
    HasFreshCode(cfg, s, token, wait);
    n := EnrollsLeast(cfg, s, u, token, key, id);
  }

  lemma HasFreshCode(cfg: Config, s: State, token: string, wait: nat)
    requires token !in s.issued && |Unexpired(s.codes, s.now)| < 100
    ensures var u := Step(cfg, Step(cfg, s, CreateCode(token, "", true)), Tick(wait));
      && u.table == s.table && u.devices == s.devices && u.joined == s.joined && u.now == s.now + wait
      && token in u.codes && u.codes[token] == Enr(s.now, s.now + 600, "")
  {
    CodeIsIssued(cfg, s, token, "", true);
  }

  lemma EnrollsLeast(cfg: Config, s: State, u: State, code: string, key: string, id: string) returns (n: nat)
    requires MayEnroll(cfg, s, code, key, id)
    requires u.table == s.table && u.devices == s.devices && u.joined == s.joined
    requires code in u.codes && u.codes[code].ip == ""
    ensures IsLeastFree(cfg, s.table, s.devices, n)
    ensures var t := Step(cfg, u, Join(code, key, id, WORKS));
      if u.now <= u.codes[code].expires
      then CameIn(s, t, code, Device(id, Address(cfg.prefix, n), key), u.now) else t == u
  {
    AllocationIsLeastFree(cfg, s.table, s.devices, key);
    n := FirstCandidate(cfg, Render(s.table), s.devices, 2).value;
    if u.now <= u.codes[code].expires {
      NotEmpty(cfg.prefix, n);
      assert Chosen(cfg, u, code) == Address(cfg.prefix, n);
      assert Proceeds(cfg, u, code, key, WORKS);
      JoinGivesHost(cfg, u, code, key, id, WORKS);
    }
  }

  lemma NotEmpty(prefix: string, n: nat)
    requires IsPrefix(prefix)
    ensures Address(prefix, n) != ""
  {
    AddressIsPlain(prefix, n);
  }

  // ---- the exceptions happen ----

  /** A server with one peer and one code for a requested address, where nothing fails. */
  function OnePeer(key: string, route: string, ip: string): State {
    State(0, map["code" := Enr(0, CODE_LIFETIME, ip)], [], [Peer(key, Some(route))], map["code" := 0], map[])
  }

  const WORKS := Env(true, true, true, true)

  /** A key that is in the table under 110.77.0.5 is taken as adopted for 10.77.0.5: the join
      succeeds, and the address has no route. */
  lemma AdoptedWithoutRoute(cfg: Config, key: string)
    requires ValidKey(key)
    ensures var s := OnePeer(key, "110.77.0.5", "10.77.0.5");
      var t := JoinStep(cfg, s, "code", key, "id", WORKS);
      t.devices == [Device("id", "10.77.0.5", key)] && Unowned(t.table, "10.77.0.5")
  {
    var s := OnePeer(key, "110.77.0.5", "10.77.0.5");
    LooksPresent(key);
    assert Proceeds(cfg, s, "code", key, WORKS);
    assert s.table[0].route == Some("110.77.0.5") && "110.77.0.5"[1] != "10.77.0.5"[1];
  }

  lemma LooksPresent(key: string)
    requires ValidKey(key)
    ensures var r := Render(OnePeer(key, "110.77.0.5", "10.77.0.5").table);
      Present(r, key, "10.77.0.5") && !Conflict(r, key, "10.77.0.5")
  {
    var t := OnePeer(key, "110.77.0.5", "10.77.0.5").table;
    PeerOfKey(key, "110.77.0.5");
    SearchMeans(t, key, "10.77.0.5");
    assert "110.77.0.5"[1..] == "10.77.0.5";
    assert t[0].key == key && Resembles(t[0], "10.77.0.5");
  }

  /** A key that is in the table under 10.77.0.9 loses that address when it joins as 10.77.0.5. */
  lemma JoinMovesKey(cfg: Config, key: string)
    requires ValidKey(key)
    ensures var s := OnePeer(key, "10.77.0.9", "10.77.0.5");
      var t := JoinStep(cfg, s, "code", key, "id", WORKS);
      && Owns(s.table, key, "10.77.0.9") && !Owns(t.table, key, "10.77.0.9")
      && Owns(t.table, key, "10.77.0.5")
  {
    var s := OnePeer(key, "10.77.0.9", "10.77.0.5");
    NotResembling(key);
    JoinSets(cfg, key);
    assert s.table[0] == Peer(key, Some("10.77.0.9"));
    assert "10.77.0.9"[8] != "10.77.0.5"[8];
    SetOwns(s.table, key, "10.77.0.5", key, "10.77.0.9");
    SetOwns(s.table, key, "10.77.0.5", key, "10.77.0.5");
  }

  /** Neither answer of the search: the address is nobody's. */
  lemma NotResembling(key: string)
    requires ValidKey(key)
    ensures var r := Render(OnePeer(key, "10.77.0.9", "10.77.0.5").table);
      !Present(r, key, "10.77.0.5") && !Conflict(r, key, "10.77.0.5")
  {
    var t := OnePeer(key, "10.77.0.9", "10.77.0.5").table;
    PeerOfKey(key, "10.77.0.9");
    SearchMeans(t, key, "10.77.0.5");
    assert "10.77.0.9"[8] != "10.77.0.5"[8];
    assert !Resembles(t[0], "10.77.0.5");
  }

  lemma JoinSets(cfg: Config, key: string)
    requires ValidKey(key)
    requires var r := Render(OnePeer(key, "10.77.0.9", "10.77.0.5").table);
      !Present(r, key, "10.77.0.5") && !Conflict(r, key, "10.77.0.5")
    ensures var s := OnePeer(key, "10.77.0.9", "10.77.0.5");
      JoinStep(cfg, s, "code", key, "id", WORKS).table == SetPeer(s.table, key, "10.77.0.5")
  {
    var s := OnePeer(key, "10.77.0.9", "10.77.0.5");
    assert Proceeds(cfg, s, "code", key, WORKS);
  }

  lemma PeerOfKey(key: string, route: string)
    requires ValidKey(key) && IsPlain(route)
    ensures Listable([Peer(key, Some(route))])
  {
    KeysAreListable(key);
  }

  lemma KeysAreListable(key: string)
    requires ValidKey(key)
    ensures IsKey(key)
  {
    DecodedIsSymbols(key);
  }

  lemma {:induction false} DecodedIsSymbols(k: string)
    requires Decode(k).Some?
    ensures forall i :: 0 <= i < |k| ==> Value(k[i]).Some? || k[i] == '='
    decreases |k|
  {
    if k != "" {
      DecodedIsSymbols(k[4..]);
      forall i | 0 <= i < |k| ensures Value(k[i]).Some? || k[i] == '=' {
        if i < 4 { assert k[..4][i] == k[i]; } else { assert k[4..][i - 4] == k[i]; }
      }
    }
  }
}
