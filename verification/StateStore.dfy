/** The handlers that write through, on lists as the program has them: an array with spare room
    and a length. Appending may write into the array, removing shifts it in place, and after a
    failed save each handler takes its change back in its own way. */
module StateStore {
  import opened Model
  import opened WriteThrough

  // ---- slices ----

  /** Append in place while there is room, in a larger copy otherwise. */
  method Append<T(0)>(a: array<T>, n: nat, x: T) returns (b: array<T>)
    requires n <= a.Length
    modifies a
    ensures n < b.Length && b[..n + 1] == old(a[..n]) + [x]
    ensures if n < a.Length then b == a else fresh(b)
  {
    if n < a.Length {
      a[n] := x;
      b := a;
    } else {
      b := new T[2 * n + 1];
      var i := 0;
      while i < n
        invariant 0 <= i <= n && b[..i] == a[..i] && a[..n] == old(a[..n])
      {
        b[i] := a[i];
        i := i + 1;
      }
      b[n] := x;
    }
  }

  /** Shift what follows index k down by one. */
  method RemoveAt<T>(a: array<T>, n: nat, k: nat)
    requires k < n <= a.Length
    modifies a
    ensures a[..n - 1] == old(a[..n])[..k] + old(a[..n])[k + 1..]
  {
    var i := k;
    while i + 1 < n
      invariant k <= i < n
      invariant a[..k] == old(a[..k])
      invariant forall j :: k <= j < i ==> a[j] == old(a[j + 1])
      invariant forall j :: i < j < n ==> a[j] == old(a[j])
    {
      a[i] := a[i + 1];
      i := i + 1;
    }
    ghost var was := old(a[..n]);
    ghost var rest := was[..k] + was[k + 1..];
    forall j | 0 <= j < |rest| ensures a[j] == rest[j] {
      if j < k { assert a[..k][j] == old(a[..k])[j]; } else { assert a[j] == old(a[j + 1]); }
    }
  }

  method Copy<T(0)>(a: array<T>, n: nat) returns (b: array<T>)
    requires n <= a.Length
    ensures fresh(b) && b.Length == n && b[..n] == a[..n]
  {
    b := new T[n];
    var i := 0;
    while i < n
      invariant 0 <= i <= n && b[..i] == a[..i]
    {
      b[i] := a[i];
      i := i + 1;
    }
  }

  lemma CutsFirst(ms: seq<Mapping>, id: Id, k: nat)
    requires k == FirstMapping(ms, id) < |ms|
    ensures FirstRemoved(ms, ms[..k] + ms[k + 1..], id) && exists i :: 0 <= i < |ms| && ms[i].id == id
  {
    OneFirstMapping(ms, id);
    assert ms[k].id == id;
  }

  // ---- the state ----

  class Store {
    var devices: array<Device>
    var nDevices: nat
    var policies: array<Policy>
    var nPolicies: nat
    var mappings: array<Mapping>
    var nMappings: nat
    var saved: Data   // what the last successful save wrote

    predicate Valid() reads this {
      nDevices <= devices.Length && nPolicies <= policies.Length && nMappings <= mappings.Length
    }

    function View(): Data
      reads this, devices, policies, mappings
      requires Valid()
    {
      Data(devices[..nDevices], policies[..nPolicies], mappings[..nMappings])
    }

    /** Memory and disk agree on the stable part. */
    ghost predicate Agrees()
      reads this, devices, policies, mappings
    {
      Valid() && Stable(View()) == Stable(saved)
    }

    constructor (d: Data)
      ensures Agrees() && View() == d && saved == d
    {
      devices := new Device[|d.devices|](i requires 0 <= i < |d.devices| => d.devices[i]);
      policies := new Policy[|d.policies|](i requires 0 <= i < |d.policies| => d.policies[i]);
      mappings := new Mapping[|d.mappings|](i requires 0 <= i < |d.mappings| => d.mappings[i]);
      nDevices, nPolicies, nMappings := |d.devices|, |d.policies|, |d.mappings|;
      saved := d;
      new;
      assert devices[..nDevices] == d.devices && policies[..nPolicies] == d.policies;
      assert mappings[..nMappings] == d.mappings;
    }

    /** Save everything; nothing is written if it fails. */
    method Persist(works: bool)
      requires Valid()
      modifies this`saved
      ensures saved == if works then View() else old(saved)
    {
      if works {
        saved := View();
      }
    }

    /** A device joins; after a failed save the list is cut again. */
    method AddDevice(d: Device, works: bool)
      requires Agrees()
      modifies this`devices, this`nDevices, this`saved, devices
      ensures Agrees() && (devices == old(devices) || fresh(devices))
      ensures View() == if works then Apply(old(View()), Join(d)) else old(View())
      ensures View().devices == old(View()).devices + (if works then [d] else [])
      ensures saved == if works then View() else old(saved)
    {
      ghost var before := View();
      devices := Append(devices, nDevices, d);
      nDevices := nDevices + 1;
      Persist(works);
      if !works {
        nDevices := nDevices - 1;
        assert devices[..nDevices] == devices[..nDevices + 1][..nDevices] == before.devices;
      }
    }

    /** A mapping is added; after a failed save the list is cut again. */
    method AddMapping(m: Mapping, works: bool)
      requires Agrees()
      modifies this`mappings, this`nMappings, this`saved, mappings
      ensures Agrees() && (mappings == old(mappings) || fresh(mappings))
      ensures View() == if works then Apply(old(View()), PutMapping(m)) else old(View())
      ensures View().mappings == old(View()).mappings + (if works then [m] else [])
      ensures saved == if works then View() else old(saved)
    {
      ghost var before := View();
      mappings := Append(mappings, nMappings, m);
      nMappings := nMappings + 1;
      Persist(works);
      if !works {
        nMappings := nMappings - 1;
        assert mappings[..nMappings] == mappings[..nMappings + 1][..nMappings] == before.mappings;
      }
    }

    method FindMapping(id: Id) returns (k: nat)
      requires Valid()
      ensures k == FirstMapping(View().mappings, id)
    {
      k := 0;
      while k < nMappings && mappings[k].id != id
        invariant 0 <= k <= nMappings && forall j :: 0 <= j < k ==> mappings[j].id != id
      {
        k := k + 1;
      }
    }

    /** Take out the first mapping of this id, which has index k. */
    method CutMapping(id: Id, k: nat)
      requires Valid() && k < nMappings && k == FirstMapping(View().mappings, id)
      modifies this`nMappings, mappings
      ensures Valid() && View() == Apply(old(View()), DeleteMapping(id))
      ensures View().mappings == old(View()).mappings[..k] + old(View()).mappings[k + 1..]
    {
      RemoveAt(mappings, nMappings, k);
      nMappings := nMappings - 1;
    }

    /** Take out the first mapping of this id, if there is one. */
    method RemoveFirst(id: Id) returns (found: bool)
      requires Valid()
      modifies this`nMappings, mappings
      ensures Valid() && View() == Apply(old(View()), DeleteMapping(id))
      ensures found <==> exists i :: 0 <= i < old(nMappings) && old(View()).mappings[i].id == id
      ensures FirstRemoved(old(View()).mappings, View().mappings, id)
    {
      var k := FindMapping(id);
      found := k < nMappings;
      if found {
        CutsFirst(View().mappings, id, k);
        CutMapping(id, k);
      }
    }

    /** A mapping is removed by shifting the list in place; a failed save brings back the copy
        that was made before. */
    method RemoveMapping(id: Id, works: bool) returns (ok: bool)
      requires Agrees()
      modifies this`mappings, this`nMappings, this`saved, mappings
      ensures Agrees() && (mappings == old(mappings) || fresh(mappings))
      ensures ok <==> works && exists i :: 0 <= i < old(nMappings) && old(View()).mappings[i].id == id
      ensures View() == if ok then Apply(old(View()), DeleteMapping(id)) else old(View())
      ensures ok ==> FirstRemoved(old(View()).mappings, View().mappings, id)
      ensures saved == if ok then View() else old(saved)
    {
      ghost var before := View();
      var copy := Copy(mappings, nMappings);
      var n := nMappings;
      var found := RemoveFirst(id);
      if !found {
        return false;
      }
      Persist(works);
      if !works {
        mappings, nMappings := copy, n;
        assert View().mappings == before.mappings;
        return false;
      }
      ok := true;
    }

    method FindDevice(id: Id) returns (k: nat)
      requires Valid()
      ensures k == FirstDevice(View().devices, id)
    {
      k := 0;
      while k < nDevices && devices[k].id != id
        invariant 0 <= k <= nDevices && forall j :: 0 <= j < k ==> devices[j].id != id
      {
        k := k + 1;
      }
    }

    /** A device is changed where it is; a failed save writes the old one back. */
    method ChangeDevice(id: Id, name: string, port: int, kind: string, ssh: Ssh, works: bool) returns (ok: bool)
      requires Agrees()
      modifies this`saved, devices
      ensures Agrees()
      ensures ok <==> works && exists i :: 0 <= i < old(nDevices) && old(View()).devices[i].id == id
      ensures View() == if ok then Apply(old(View()), UpdateDevice(id, name, port, kind, ssh)) else old(View())
      ensures ok ==> Updated(old(View()).devices, View().devices, id, name, port, kind, ssh)
      ensures saved == if ok then View() else old(saved)
    {
      ChangeMeans(View(), UpdateDevice(id, name, port, kind, ssh));
      var k := FindDevice(id);
      if k == nDevices {
        return false;
      }
      ghost var before := View();
      var was := devices[k];
      devices[k] := was.(name := name, proxyPort := port, proxyType := kind, ssh := ssh);
      assert View().devices == before.devices[k := devices[k]];
      Persist(works);
      if !works {
        devices[k] := was;
        assert View().devices == before.devices;
        return false;
      }
      ok := true;
    }

    /** Overwrite the policies of the same source where they are. */
    method Overwrite(p: Policy) returns (found: bool)
      requires Valid()
      modifies policies
      ensures policies[..nPolicies] == Replaced(old(policies[..nPolicies]), p)
      ensures found <==> HasPolicy(old(policies[..nPolicies]), p.source)
    {
      found := false;
      var i := 0;
      while i < nPolicies
        invariant 0 <= i <= nPolicies
        invariant forall j :: 0 <= j < i ==>
          policies[j] == if old(policies[j]).source == p.source then p else old(policies[j])
        invariant forall j :: i <= j < nPolicies ==> policies[j] == old(policies[j])
        invariant found <==> exists j :: 0 <= j < i && old(policies[..nPolicies])[j].source == p.source
      {
        if policies[i].source == p.source {
          policies[i] := p;
          found := true;
        }
        i := i + 1;
      }
    }

    /** Overwrite the policies of the source or append the new one. */
    method Place(p: Policy)
      requires Agrees()
      modifies this`policies, this`nPolicies, policies
      ensures Valid() && (policies == old(policies) || fresh(policies))
      ensures View() == Apply(old(View()), PutPolicy(p))
    {
      var found := Overwrite(p);
      if !found {
        assert Replaced(old(View()).policies, p) == old(View()).policies;
        policies := Append(policies, nPolicies, p);
        nPolicies := nPolicies + 1;
      }
    }

    /** A policy is set; a failed save brings back the copy that was made before. */
    method SetPolicy(p: Policy, works: bool)
      requires Agrees()
      modifies this`policies, this`nPolicies, this`saved, policies
      ensures Agrees() && (policies == old(policies) || fresh(policies))
      ensures View() == if works then Apply(old(View()), PutPolicy(p)) else old(View())
      ensures works ==> PolicySet(old(View()).policies, View().policies, p)
      ensures saved == if works then View() else old(saved)
    {
      ChangeMeans(View(), PutPolicy(p));
      var copy := Copy(policies, nPolicies);
      var n := nPolicies;
      Place(p);
      Persist(works);
      if !works {
        policies, nPolicies := copy, n;
      }
    }
  }

}
