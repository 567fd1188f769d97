/** The server's enrollment handlers over its own tables. */
module EnrollmentServer {
  import opened Prelude
  import opened Base64
  import opened WireGuard
  import opened Enrollment

  class Registry {
    var now: int
    var codes: map<string, Enr>
    var devices: seq<Device>
    var table: seq<Peer>
    ghost var issued: map<string, int>
    ghost var joined: map<string, Entry>

    ghost function View(): State reads this { State(now, codes, devices, table, issued, joined) }

    constructor (initial: seq<Device>, peers: seq<Peer>, time: int)
      requires Distinct(initial)
      ensures View() == State(time, map[], initial, peers, map[], map[]) && Inv(View())
    {
      now, codes, devices, table := time, map[], initial, peers;
      issued, joined := map[], map[];
    }

    /** Drop the codes that have expired. */
    method Expire()
      modifies this`codes
      ensures codes == Live(old(codes), now)
      ensures |codes| == |Unexpired(old(codes), now)|
    {
      var rest := codes;
      while rest.Keys != {}
        invariant rest.Keys <= old(codes).Keys && codes.Keys <= old(codes).Keys
        invariant forall c :: c in codes <==> c in old(codes) && (c in rest || now <= old(codes)[c].expires)
        invariant forall c :: c in codes ==> codes[c] == old(codes)[c]
        invariant forall c :: c in rest ==> rest[c] == old(codes)[c]
        decreases |rest|
      {
        var c :| c in rest.Keys;
        if now > rest[c].expires {
          codes := codes - {c};
        }
        rest := rest - {c};
      }
      LiveMeans(old(codes), now);
    }

    /** Issue a code if less than 100 can be used. */
    method Issue(token: string, ip: string) returns (ok: bool)
      modifies this`codes, this`issued
      ensures ok <==> |Unexpired(old(codes), now)| < 100
      ensures codes == if ok then Live(old(codes), now)[token := Enr(now, now + 600, ip)] else Live(old(codes), now)
      ensures issued == if ok then old(issued)[token := now] else old(issued)
    {
      Expire();
      if |codes| >= MAX_CODES {
        return false;
      }
      codes := codes[token := Enr(now, now + CODE_LIFETIME, ip)];
      issued := issued[token := now];
      ok := true;
    }

    /** `inside` says whether a requested address lies in the private network. */
    method CreateCode(cfg: Config, token: string, ip: string, inside: bool) returns (ok: bool)
      requires Inv(View()) && token !in issued
      modifies this
      ensures View() == CreateStep(cfg, old(View()), token, ip, inside) && Inv(View())
      ensures ok <==> (ip == "" || (inside && ip != cfg.serverIP)) && |Unexpired(old(codes), now)| < 100
      ensures ok ==> codes == Live(old(codes), now)[token := Enr(now, now + 600, ip)]
      ensures !ok ==> codes == old(codes) || codes == Live(old(codes), now)
      ensures issued == if ok then old(issued)[token := now] else old(issued)
      ensures devices == old(devices) && table == old(table) && now == old(now)
    {
      CreateKeeps(cfg, View(), token, ip, inside);
      if ip != "" {
        if !inside || ip == cfg.serverIP {
          return false;
        }
      }
      ok := Issue(token, ip);
    }

    /** Is the key or the requested address taken by a device? */
    method Taken(key: string, ip: string) returns (taken: bool)
      ensures taken <==> HasKey(devices, key) || (ip != "" && HasIP(devices, ip))
    {
      var i := 0;
      while i < |devices|
        invariant 0 <= i <= |devices|
        invariant forall j :: 0 <= j < i ==> devices[j].key != key && !(ip != "" && devices[j].ip == ip)
      {
        if devices[i].key == key || (ip != "" && devices[i].ip == ip) {
          return true;
        }
        i := i + 1;
      }
      taken := false;
    }

    method Choose(cfg: Config, code: string, existing: string) returns (ip: string)
      requires code in codes && existing == Render(table)
      ensures ip == Chosen(cfg, View(), code)
    {
      ip := codes[code].ip;
      if ip == "" {
        ip := Allocate(cfg, existing, devices);
      }
    }

    /** Create the device at its address. A failed save takes the device and the route it
        set back out; the code stays valid. */
    method Enroll(code: string, d: Device, adopted: bool, env: Env) returns (ok: bool)
      requires code in codes && (adopted || env.setOk)
      modifies this
      ensures ok == env.saveOk
      ensures devices == old(devices) + (if ok then [d] else [])
      ensures codes == (if ok then old(codes) - {code} else old(codes)) && now == old(now) && issued == old(issued)
      ensures joined == if ok then old(joined)[d.id := Entry(code, now)] else old(joined)
      ensures table ==
        var routed := if adopted then old(table) else SetPeer(old(table), d.key, d.ip);
        if ok || adopted || !env.removeOk then routed else RemovePeer(routed, d.key)
    {
      if !adopted {
        table := SetPeer(table, d.key, d.ip);
      }
      devices := devices + [d];
      if !env.saveOk {
        devices := devices[..|devices| - 1];
        if !adopted && env.removeOk {
          table := RemovePeer(table, d.key);
        }
        return false;
      }
      codes := codes - {code};
      joined := joined[d.id := Entry(code, now)];
      ok := true;
    }

    method Join(cfg: Config, code: string, key: string, id: string, env: Env) returns (device: Option<Device>)
      requires Inv(View()) && !HasId(devices, id) && id !in joined
      modifies this
      ensures View() == JoinStep(cfg, old(View()), code, key, id, env) && Inv(View())
      ensures device.None? ==> devices == old(devices) && codes == old(codes) && joined == old(joined)
      ensures device.Some? ==>
        && devices == old(devices) + [device.value] && device.value.id == id && device.value.key == key
        && code in old(codes) && codes == old(codes) - {code} && now <= old(codes)[code].expires
        && (old(codes)[code].ip != "" ==> device.value.ip == old(codes)[code].ip)
        && device.value.ip == Chosen(cfg, old(View()), code)
      ensures device.Some? <==>
        && Decode(key).Some? && |Decode(key).value| == 32
        && code in old(codes) && now <= old(codes)[code].expires
        && !HasKey(old(devices), key) && (old(codes)[code].ip != "" ==> !HasIP(old(devices), old(codes)[code].ip))
        && env.showOk && Chosen(cfg, old(View()), code) != ""
        && !Conflict(Render(old(table)), key, Chosen(cfg, old(View()), code))
        && (Present(Render(old(table)), key, Chosen(cfg, old(View()), code)) || env.setOk) && env.saveOk
    {
      JoinKeeps(cfg, View(), code, key, id, env);
      if !ValidKey(key) || code !in codes || now > codes[code].expires {
        return None;
      }
      var taken := Taken(key, codes[code].ip);
      if taken || !env.showOk {
        return None;
      }
      var existing := Render(table);
      var ip := Choose(cfg, code, existing);
      if ip == "" {
        return None;
      }
      var adopted, conflict := Search(existing, key, ip);
      assert (adopted <==> Present(existing, key, ip)) && (conflict <==> Conflict(existing, key, ip));
      if conflict || (!adopted && !env.setOk) {
        return None;
      }
      assert Proceeds(cfg, View(), code, key, env);
      var ok := Enroll(code, Device(id, ip, key), adopted, env);
      device := if ok then Some(Device(id, ip, key)) else None;
    }
  }
}
