/** The WireGuard peer table, the text `wg show ... allowed-ips` prints for it, and the
    substring test with which the server looks addresses up in that text. */
module WireGuard {
  import opened Prelude
  import opened Text
  import opened Base64

  /** A peer with at most one allowed address. */
  datatype Peer = Peer(key: string, route: Option<string>)

  // ---- the table ----

  ghost predicate Owns(t: seq<Peer>, key: string, ip: string) { Peer(key, Some(ip)) in t }

  ghost predicate Unowned(t: seq<Peer>, ip: string) { forall k :: !Owns(t, k, ip) }

  /** One peer per key and one owner per address. */
  ghost predicate Consistent(t: seq<Peer>) {
    && (forall i, j :: 0 <= i < j < |t| ==> t[i].key != t[j].key)
    && (forall i, j :: 0 <= i < j < |t| && t[i].route.Some? ==> t[i].route != t[j].route)
  }

  function Without(t: seq<Peer>, key: string, ip: string): seq<Peer> {
    if t == [] then []
    else if t[0].key == key then Without(t[1..], key, ip)
    else [if t[0].route == Some(ip) then t[0].(route := None) else t[0]] + Without(t[1..], key, ip)
  }

  /** `wg set ... peer key allowed-ips ip/32`: the key gets this one address, and the
      address is taken from whoever had it. */
  function SetPeer(t: seq<Peer>, key: string, ip: string): seq<Peer> {
    Without(t, key, ip) + [Peer(key, Some(ip))]
  }

  /** `wg set ... peer key remove`. */
  function RemovePeer(t: seq<Peer>, key: string): seq<Peer> {
    if t == [] then []
    else if t[0].key == key then RemovePeer(t[1..], key)
    else [t[0]] + RemovePeer(t[1..], key)
  }

  lemma {:induction false} WithoutOwns(t: seq<Peer>, key: string, ip: string, k: string, a: string)
    ensures Owns(Without(t, key, ip), k, a) <==> k != key && a != ip && Owns(t, k, a)
  {
    if t != [] {
      WithoutOwns(t[1..], key, ip, k, a);
      assert t == [t[0]] + t[1..];
    }
  }

  lemma SetOwns(t: seq<Peer>, key: string, ip: string, k: string, a: string)
    ensures Owns(SetPeer(t, key, ip), k, a) <==> (k == key && a == ip) || (k != key && a != ip && Owns(t, k, a))
  {
    WithoutOwns(t, key, ip, k, a);
  }

  lemma {:induction false} RemoveOwns(t: seq<Peer>, key: string, k: string, a: string)
    ensures Owns(RemovePeer(t, key), k, a) <==> k != key && Owns(t, k, a)
  {
    if t != [] {
      RemoveOwns(t[1..], key, k, a);
      assert t == [t[0]] + t[1..];
    }
  }

  // ---- substrings ----

  predicate At(text: string, pat: string, i: nat) { i + |pat| <= |text| && text[i..i + |pat|] == pat }

  predicate Contains(text: string, pat: string) { exists i: nat :: i <= |text| && At(text, pat, i) }

  lemma AtChar(text: string, pat: string, i: nat, k: nat)
    requires At(text, pat, i) && k < |pat|
    ensures i + k < |text| && text[i + k] == pat[k]
  {
    assert text[i..i + |pat|][k] == text[i + k];
  }

  lemma AtPrefix(x: string, z: string, pat: string, i: nat)
    requires i + |pat| <= |x|
    ensures At(x + z, pat, i) <==> At(x, pat, i)
  {
    assert (x + z)[i..i + |pat|] == x[i..i + |pat|];
  }

  lemma AtSuffix(x: string, z: string, pat: string, i: nat)
    ensures At(x + z, pat, |x| + i) <==> At(z, pat, i)
  {
    if i + |pat| <= |z| { assert (x + z)[|x| + i..|x| + i + |pat|] == z[i..i + |pat|]; }
  }

  /** A pattern without the separator lies on one side of it. */
  lemma ContainsSplit(x: string, sep: char, y: string, pat: string)
    requires sep !in pat
    ensures Contains(x + [sep] + y, pat) <==> Contains(x, pat) || Contains(y, pat)
  {
    var text := x + [sep] + y;
    assert text == x + ([sep] + y);
    if Contains(text, pat) {
      var i: nat :| i <= |text| && At(text, pat, i);
      if i + |pat| <= |x| {
        AtPrefix(x, [sep] + y, pat, i);
      } else if i > |x| {
        AtSuffix(x + [sep], y, pat, i - |x| - 1);
      } else {
        AtChar(text, pat, i, |x| - i);
      }
    }
    if Contains(x, pat) {
      var i: nat :| i <= |x| && At(x, pat, i);
      AtPrefix(x, [sep] + y, pat, i);
    }
    if Contains(y, pat) {
      var i: nat :| i <= |y| && At(y, pat, i);
      AtSuffix(x + [sep], y, pat, i);
    }
  }

  lemma MissingChar(text: string, pat: string, c: char)
    requires c in pat && c !in text
    ensures !Contains(text, pat)
  {
    var k :| 0 <= k < |pat| && pat[k] == c;
    if Contains(text, pat) {
      var i: nat :| i <= |text| && At(text, pat, i);
      AtChar(text, pat, i, k);
    }
  }

  // ---- addresses in the text ----

  predicate IsSpace(c: char) { c == ' ' || c == '\t' || c == '\n' || c == '\r' }

  /** What stands before the slash of an allowed address. */
  predicate IsPlain(a: string) { a != "" && forall i :: 0 <= i < |a| ==> a[i] != '/' && !IsSpace(a[i]) }

  function Route(ip: string): string { ip + "/32" }

  predicate EndsIn(a: string, b: string) { |b| <= |a| && a[|a| - |b|..] == b }

  /** The search for one address hits another exactly if that one ends in it. */
  lemma RouteContains(a: string, b: string)
    requires '/' !in a && '/' !in b
    ensures Contains(a + "/32", b + "/32") <==> EndsIn(a, b)
  {
    var text, pat := Route(a), Route(b);
    if Contains(text, pat) {
      var i: nat :| i <= |text| && At(text, pat, i);
      AtChar(text, pat, i, |b|);
      assert text[i + |b|] == '/';
      assert i + |b| == |a|;
      assert a[i..] == text[i..i + |pat|][..|b|] == pat[..|b|] == b;
    }
    if EndsIn(a, b) {
      assert text[|a| - |b|..] == a[|a| - |b|..] + "/32";
      assert At(text, pat, |a| - |b|);
    }
  }

  /** So across networks it may hit a wrong one: 110.77.0.5 ends in 10.77.0.5. */
  lemma OtherNetworkNotExact()
    ensures Contains("110.77.0.5/32", "10.77.0.5/32")
  {
    assert "110.77.0.5"[1..] == "10.77.0.5";
    RouteContains("110.77.0.5", "10.77.0.5");
    assert "110.77.0.5" + "/32" == "110.77.0.5/32" && "10.77.0.5" + "/32" == "10.77.0.5/32";
  }

  // ---- addresses of one /24 ----

  /** A decimal number of one byte, without leading zeros. */
  predicate IsOctet(s: string) {
    && 1 <= |s| <= 3 && (forall i :: 0 <= i < |s| ==> IsDigit(s[i]))
    && (|s| > 1 ==> s[0] != '0') && Number(s) <= 255
  }

  /** A dotted quad. */
  predicate IsQuad(s: string) {
    var octets := Split(s, '.');
    |octets| == 4 && forall i :: 0 <= i < 4 ==> IsOctet(octets[i])
  }

  /** What the first three octets of the network print as, with the final dot. */
  predicate IsPrefix(p: string) {
    && |p| > 0 && p[|p| - 1] == '.' && (forall i :: 0 <= i < |p| ==> p[i] == '.' || IsDigit(p[i]))
    && IsQuad(p + "0")
  }

  function Address(p: string, n: nat): string { p + Decimal(n) }

  /** An address of the /24 of p. */
  ghost predicate IsHost(p: string, ip: string) { exists n: nat :: n <= 255 && ip == Address(p, n) }

  lemma AddressInjective(p: string, m: nat, n: nat)
    requires Address(p, m) == Address(p, n)
    ensures m == n
  {
    assert Address(p, m)[|p|..] == Decimal(m) && Address(p, n)[|p|..] == Decimal(n);
    NumberOfDecimal(m);
    NumberOfDecimal(n);
  }

  lemma AddressIsPlain(p: string, n: nat)
    requires IsPrefix(p)
    ensures IsPlain(Address(p, n)) && '.' in Address(p, n)
  {
    DecimalDigits(n);
    var ip := Address(p, n);
    forall i | 0 <= i < |ip| ensures ip[i] == '.' || IsDigit(ip[i]) {
      assert ip[i] == if i < |p| then p[i] else Decimal(n)[i - |p|];
    }
    assert ip[|p| - 1] == '.';
  }

  /** Within one /24 an address never ends in another. */
  lemma HostsApart(p: string, m: nat, n: nat)
    requires IsPrefix(p)
    ensures EndsIn(Address(p, m), Address(p, n)) <==> m == n
  {
    var a, b := Address(p, m), Address(p, n);
    DecimalDigits(m);
    if EndsIn(a, b) {
      var k := |a| - |b|;
      assert b[|p| - 1] == '.';
      assert a[k..][|p| - 1] == a[k + |p| - 1];
      assert a == b;
      AddressInjective(p, m, n);
    }
  }

  /** Within one /24 the text of one address never occurs inside that of another. */
  lemma SameNetworkExact(p: string, m: nat, n: nat)
    requires IsPrefix(p)
    ensures Contains(Route(Address(p, m)), Route(Address(p, n))) <==> m == n
  {
    AddressIsPlain(p, m);
    AddressIsPlain(p, n);
    RouteContains(Address(p, m), Address(p, n));
    HostsApart(p, m, n);
  }

  /** Every host of 0 to 255 makes a dotted quad. */
  lemma HostIsQuad(p: string, n: nat)
    requires IsPrefix(p) && n <= 255
    ensures IsQuad(Address(p, n))
  {
    var q, d := p[..|p| - 1], Decimal(n);
    assert p + "0" == q + ['.'] + "0" && p + d == q + ['.'] + d;
    DecimalIsOctet(n);
    SplitLast(q, '.', "0");
    SplitLast(q, '.', d);
    var before, after := Split(p + "0", '.'), Split(p + d, '.');
    assert |after| == 4;
    forall i | 0 <= i < 4 ensures IsOctet(after[i]) {
      if i < 3 { assert after[i] == Split(q, '.')[i] == before[i]; }
    }
  }

  lemma DecimalIsOctet(n: nat)
    requires n <= 255
    ensures IsOctet(Decimal(n)) && '.' !in Decimal(n)
  {
    DecimalDigits(n);
    DecimalLength(n, 3);
    NumberOfDecimal(n);
    NoLeadingZero(n);
  }

  lemma {:induction false} NoLeadingZero(n: nat)
    ensures n > 0 ==> |Decimal(n)| > 0 && Decimal(n)[0] != '0'
    ensures n == 0 ==> |Decimal(n)| == 1
  {
    if n >= 10 { NoLeadingZero(n / 10); }
  }

  // ---- the printed table ----

  /** Keys are base64. */
  predicate IsKey(k: string) { k != "" && forall i :: 0 <= i < |k| ==> Value(k[i]).Some? || k[i] == '=' }

  function Field(p: Peer): string { if p.route.Some? then Route(p.route.value) else "(none)" }

  function Line(p: Peer): string { p.key + ['\t'] + Field(p) }

  function Render(t: seq<Peer>): string {
    if t == [] then ""
    else if |t| == 1 then Line(t[0])
    else Line(t[0]) + ['\n'] + Render(t[1..])
  }

  predicate PeerOk(p: Peer) { IsKey(p.key) && (p.route.Some? ==> IsPlain(p.route.value)) }

  /** A table that `wg` can have: base64 keys, and addresses of any network. */
  ghost predicate Listable(t: seq<Peer>) { forall i :: 0 <= i < |t| ==> PeerOk(t[i]) }

  /** Every address lies in the /24 of p. */
  ghost predicate InNetwork(t: seq<Peer>, p: string) {
    forall i :: 0 <= i < |t| ==> IsKey(t[i].key) && (t[i].route.Some? ==> IsHost(p, t[i].route.value))
  }

  lemma NetworkIsListable(t: seq<Peer>, p: string)
    requires IsPrefix(p) && InNetwork(t, p)
    ensures Listable(t)
  {
    forall i | 0 <= i < |t| ensures PeerOk(t[i]) {
      if t[i].route.Some? {
        var n: nat :| n <= 255 && t[i].route.value == Address(p, n);
        AddressIsPlain(p, n);
      }
    }
  }

  /** The peer's address is ip or a longer text that ends in it. */
  predicate Resembles(p: Peer, ip: string) { p.route.Some? && EndsIn(p.route.value, ip) }

  ghost predicate Shadowed(t: seq<Peer>, ip: string) { exists i :: 0 <= i < |t| && Resembles(t[i], ip) }

  lemma FieldContains(peer: Peer, ip: string)
    requires PeerOk(peer) && IsPlain(ip)
    ensures Contains(Field(peer), Route(ip)) <==> Resembles(peer, ip)
  {
    if peer.route.None? {
      assert Route(ip)[|ip|] == '/';
      MissingChar("(none)", Route(ip), '/');
    } else {
      RouteContains(peer.route.value, ip);
    }
  }

  lemma LineContains(peer: Peer, ip: string)
    requires PeerOk(peer) && IsPlain(ip) && '.' in ip
    ensures Contains(Line(peer), Route(ip)) <==> Resembles(peer, ip)
  {
    ContainsSplit(peer.key, '\t', Field(peer), Route(ip));
    MissingChar(peer.key, Route(ip), '.');
    FieldContains(peer, ip);
  }

  lemma ShadowedStep(t: seq<Peer>, ip: string)
    requires t != []
    ensures Shadowed(t, ip) <==> Resembles(t[0], ip) || Shadowed(t[1..], ip)
  {
    if i :| 0 <= i < |t| && Resembles(t[i], ip) {
      if i > 0 { assert t[1..][i - 1] == t[i]; }
    }
    if i :| 0 <= i < |t[1..]| && Resembles(t[1..][i], ip) { assert t[i + 1] == t[1..][i]; }
  }

  /** The substring test on the whole output, for every table: it finds an address if and only
      if some peer's address ends in it. */
  lemma {:induction false} RenderContains(t: seq<Peer>, ip: string)
    requires Listable(t) && IsPlain(ip) && '.' in ip
    ensures Contains(Render(t), ip + "/32") <==> Shadowed(t, ip)
    decreases |t|
  {
    if t == [] {
      assert Route(ip)[|ip|] == '/';
      MissingChar("", Route(ip), '/');
    } else {
      LineContains(t[0], ip);
      ShadowedStep(t, ip);
      if |t| > 1 {
        ContainsSplit(Line(t[0]), '\n', Render(t[1..]), Route(ip));
        RenderContains(t[1..], ip);
      }
    }
  }

  /** In a table of one /24 that is exactly the peer that has it. */
  lemma HostResembles(t: seq<Peer>, p: string, n: nat, i: nat)
    requires IsPrefix(p) && InNetwork(t, p) && i < |t|
    ensures Resembles(t[i], Address(p, n)) <==> t[i].route == Some(Address(p, n))
  {
    if t[i].route.Some? {
      var m: nat :| m <= 255 && t[i].route.value == Address(p, m);
      HostsApart(p, m, n);
    }
  }

  lemma ShadowedHost(t: seq<Peer>, p: string, n: nat)
    requires IsPrefix(p) && InNetwork(t, p)
    ensures Shadowed(t, Address(p, n)) <==> !Unowned(t, Address(p, n))
  {
    ShadowedMeans(t, Address(p, n));
    HostsUnmistaken(t, p, n);
  }

  lemma OwnerResembles(t: seq<Peer>, k: string, ip: string)
    requires Owns(t, k, ip)
    ensures exists i :: 0 <= i < |t| && t[i].key == k && Resembles(t[i], ip)
  {
    var i :| 0 <= i < |t| && t[i] == Peer(k, Some(ip));
    assert Resembles(t[i], ip);
  }

  /** There the substring test is exact: it finds an address of the /24 if and only if some
      peer has it. */
  lemma RenderExact(t: seq<Peer>, p: string, n: nat)
    requires IsPrefix(p) && InNetwork(t, p)
    ensures Contains(Render(t), Route(Address(p, n))) <==> !Unowned(t, Address(p, n))
  {
    NetworkIsListable(t, p);
    AddressIsPlain(p, n);
    RenderContains(t, Address(p, n));
    ShadowedHost(t, p, n);
  }

  // ---- how the server takes the output apart ----

  function Split(s: string, sep: char): seq<string> {
    if sep !in s then [s] else
      var i := IndexOf(s, sep);
      [s[..i]] + Split(s[i + 1..], sep)
  }

  function IndexOf(s: string, c: char): (i: nat)
    requires c in s
    ensures i < |s| && s[i] == c && c !in s[..i]
  {
    if s[0] == c then 0 else
      var j := IndexOf(s[1..], c);
      assert s[..j + 1] == [s[0]] + s[1..][..j];
      j + 1
  }

  /** The maximal runs of other characters. */
  function Fields(s: string): seq<string> {
    if s == "" then []
    else if IsSpace(s[0]) then Fields(s[1..])
    else
      var n := WordLength(s);
      [s[..n]] + Fields(s[n..])
  }

  function WordLength(s: string): (n: nat)
    ensures n <= |s| && (forall i :: 0 <= i < n ==> !IsSpace(s[i])) && (n < |s| ==> IsSpace(s[n]))
    ensures s != "" && !IsSpace(s[0]) ==> n > 0
  {
    if s == "" || IsSpace(s[0]) then 0 else 1 + WordLength(s[1..])
  }

  ghost predicate IsWord(w: string) { w != "" && forall i :: 0 <= i < |w| ==> !IsSpace(w[i]) }

  lemma {:induction false} WordLengthIs(w: string, rest: string)
    requires (forall i :: 0 <= i < |w| ==> !IsSpace(w[i])) && (rest == "" || IsSpace(rest[0]))
    ensures WordLength(w + rest) == |w|
    decreases |w|
  {
    if w == "" {
      assert w + rest == rest;
    } else {
      assert (w + rest)[1..] == w[1..] + rest;
      WordLengthIs(w[1..], rest);
    }
  }

  lemma FirstField(w: string, rest: string)
    requires IsWord(w) && (rest == "" || IsSpace(rest[0]))
    ensures Fields(w + rest) == [w] + Fields(rest)
  {
    var s := w + rest;
    WordLengthIs(w, rest);
    assert s[0] == w[0] && s[..|w|] == w && s[|w|..] == rest;
  }

  lemma FieldsOfTwo(a: string, b: string)
    requires IsWord(a) && IsWord(b)
    ensures Fields(a + ['\t'] + b) == [a, b]
  {
    var rest := ['\t'] + b;
    assert a + ['\t'] + b == a + rest;
    FirstField(a, rest);
    assert rest[1..] == b;
    FirstField(b, "");
    assert b + "" == b && Fields("") == [];
  }

  lemma {:induction false} IndexIs(s: string, c: char, j: nat)
    requires j < |s| && s[j] == c && c !in s[..j]
    ensures IndexOf(s, c) == j
    decreases j
  {
    if j > 0 {
      assert s[..j][0] == s[0] && s[1..][..j - 1] == s[..j][1..];
      IndexIs(s[1..], c, j - 1);
    }
  }

  lemma SplitAt(x: string, sep: char, y: string)
    requires sep !in x
    ensures Split(x + [sep] + y, sep) == [x] + Split(y, sep)
  {
    var s := x + [sep] + y;
    assert s[|x|] == sep && s[..|x|] == x && s[|x| + 1..] == y;
    IndexIs(s, sep, |x|);
  }

  lemma Regroup(x: string, i: nat, sep: char, y: string)
    requires i < |x| && x[i] == sep
    ensures x + [sep] + y == x[..i] + [sep] + (x[i + 1..] + [sep] + y)
  {
    assert x == x[..i] + [sep] + x[i + 1..];
  }

  /** Splitting at the last separator. */
  lemma {:induction false} SplitLast(x: string, sep: char, y: string)
    requires sep !in y
    ensures Split(x + [sep] + y, sep) == Split(x, sep) + [y]
    decreases |x|, 1
  {
    if sep in x {
      SplitRest(x, IndexOf(x, sep), sep, y);
    } else {
      SplitAt(x, sep, y);
    }
  }

  /** The same for a text with a separator before the last. */
  lemma {:induction false} SplitRest(x: string, i: nat, sep: char, y: string)
    requires sep !in y && i < |x| && x[i] == sep && sep !in x[..i]
    ensures Split(x + [sep] + y, sep) == Split(x, sep) + [y]
    decreases |x|, 0
  {
    var head, rest := x[..i], x[i + 1..];
    Regroup(x, i, sep, y);
    assert x == head + [sep] + rest;
    SplitAt(head, sep, rest);
    SplitAt(head, sep, rest + [sep] + y);
    SplitLast(rest, sep, y);
  }

  /** Nothing but separators lies outside the pieces. */
  lemma {:induction false} SplitCovers(s: string, sep: char, i: nat) returns (j: nat, k: nat)
    requires i < |s| && s[i] != sep
    ensures j < |Split(s, sep)| && k < |Split(s, sep)[j]| && Split(s, sep)[j][k] == s[i]
    decreases |s|
  {
    if sep !in s {
      j, k := 0, i;
    } else {
      var n := IndexOf(s, sep);
      if i < n {
        j, k := 0, i;
      } else {
        var j', k' := SplitCovers(s[n + 1..], sep, i - n - 1);
        j, k := j' + 1, k';
      }
    }
  }

  lemma QuadIsPlain(s: string)
    requires IsQuad(s)
    ensures IsPlain(s) && '.' in s
  {
    forall i | 0 <= i < |s| ensures s[i] == '.' || IsDigit(s[i]) {
      if s[i] != '.' { var j, k := SplitCovers(s, '.', i); }
    }
  }

  lemma WordsOfPeer(peer: Peer)
    requires PeerOk(peer)
    ensures IsWord(peer.key) && IsWord(Field(peer)) && '\n' !in Line(peer)
    ensures Fields(Line(peer)) == [peer.key, Field(peer)]
  {
    FieldsOfTwo(peer.key, Field(peer));
  }

  lemma {:induction false} RowOfRender(t: seq<Peer>, i: nat)
    requires Listable(t) && i < |t|
    ensures |Split(Render(t), '\n')| == |t|
    ensures Split(Render(t), '\n')[i] == Line(t[i])
    decreases |t|
  {
    WordsOfPeer(t[0]);
    if |t| > 1 {
      SplitAt(Line(t[0]), '\n', Render(t[1..]));
      RowOfRender(t[1..], if i == 0 then 0 else i - 1);
    }
  }

  /** Splitting the output into lines and fields gives back the table, row by row. */
  lemma RowsOfRender(t: seq<Peer>)
    requires Listable(t) && t != []
    ensures |Split(Render(t), '\n')| == |t|
    ensures forall i :: 0 <= i < |t| ==>
      Fields(Split(Render(t), '\n')[i]) ==
        [t[i].key, if t[i].route.Some? then t[i].route.value + "/32" else "(none)"]
  {
    RowOfRender(t, 0);
    forall i | 0 <= i < |t| ensures Fields(Split(Render(t), '\n')[i]) == [t[i].key, Field(t[i])] {
      RowOfRender(t, i);
      WordsOfPeer(t[i]);
    }
  }

  /** One of the first n rows has the address, with this key or with another. */
  ghost predicate Seen(rows: seq<string>, n: nat, key: string, ip: string, same: bool)
    requires n <= |rows|
  {
    exists i :: 0 <= i < n && HitBy(rows[i], key, ip, same)
  }

  /** The loop over the lines that looks for an address: whether the key itself has it, and
      whether another key has it. */
  method Search(existing: string, key: string, ip: string) returns (present: bool, conflict: bool)
    ensures present <==> Present(existing, key, ip)
    ensures conflict <==> Conflict(existing, key, ip)
  {
    present, conflict := false, false;
    var rows := Split(existing, '\n');
    var i := 0;
    while i < |rows|
      invariant 0 <= i <= |rows|
      invariant present <==> Seen(rows, i, key, ip, true)
      invariant conflict <==> Seen(rows, i, key, ip, false)
    {
      var f := Fields(rows[i]);
      if |f| >= 2 && Contains(f[1], Route(ip)) {
        if f[0] == key {
          present := true;
        } else {
          conflict := true;
        }
      }
      i := i + 1;
    }
    assert Seen(rows, |rows|, key, ip, true) <==> Present(existing, key, ip);
    assert Seen(rows, |rows|, key, ip, false) <==> Conflict(existing, key, ip);
  }

  predicate Hit(row: string, ip: string) { |Fields(row)| >= 2 && Contains(Fields(row)[1], Route(ip)) }

  /** A row of this key, or of another one, that the search takes for the address. */
  predicate HitBy(row: string, key: string, ip: string, same: bool) {
    Hit(row, ip) && ((Fields(row)[0] == key) == same)
  }

  predicate Present(existing: string, key: string, ip: string) {
    exists i :: 0 <= i < |Split(existing, '\n')| && HitBy(Split(existing, '\n')[i], key, ip, true)
  }

  predicate Conflict(existing: string, key: string, ip: string) {
    exists i :: 0 <= i < |Split(existing, '\n')| && HitBy(Split(existing, '\n')[i], key, ip, false)
  }

  /** The peer of this key has an address that is ip or ends in it. */
  ghost predicate SeemsOwner(t: seq<Peer>, key: string, ip: string) {
    exists i :: 0 <= i < |t| && t[i].key == key && Resembles(t[i], ip)
  }

  ghost predicate SeemsTaken(t: seq<Peer>, key: string, ip: string) {
    exists i :: 0 <= i < |t| && t[i].key != key && Resembles(t[i], ip)
  }

  lemma RowHit(t: seq<Peer>, key: string, ip: string, i: nat, same: bool)
    requires Listable(t) && IsPlain(ip) && i < |t|
    ensures i < |Split(Render(t), '\n')|
    ensures HitBy(Split(Render(t), '\n')[i], key, ip, same) <==> Resembles(t[i], ip) && (t[i].key == key) == same
  {
    RowsOfRender(t);
    FieldContains(t[i], ip);
  }

  /** What the line search answers on the server's own output, for every table and address. */
  lemma SearchMeans(t: seq<Peer>, key: string, ip: string)
    requires Listable(t) && IsPlain(ip)
    ensures Present(Render(t), key, ip) <==> SeemsOwner(t, key, ip)
    ensures Conflict(Render(t), key, ip) <==> SeemsTaken(t, key, ip)
  {
    var rows := Split(Render(t), '\n');
    if t == [] {
      assert rows == [""] && Fields("") == [];
    } else {
      RowsOfRender(t);
      forall i, same | 0 <= i < |t|
        ensures HitBy(rows[i], key, ip, same) <==> Resembles(t[i], ip) && (t[i].key == key) == same
      {
        RowHit(t, key, ip, i, same);
      }
    }
  }

  /** Some peer has another address that ends in ip. */
  ghost predicate Mistaken(t: seq<Peer>, ip: string) {
    exists i :: 0 <= i < |t| && Resembles(t[i], ip) && t[i].route.value != ip
  }

  ghost predicate OwnedByOther(t: seq<Peer>, key: string, ip: string) { exists k :: k != key && Owns(t, k, ip) }

  /** The search tells every key exactly whether it has the address and whether another has it. */
  ghost predicate SearchIsRight(t: seq<Peer>, ip: string) {
    forall key ::
      && (Present(Render(t), key, ip) <==> Owns(t, key, ip))
      && (Conflict(Render(t), key, ip) <==> OwnedByOther(t, key, ip))
  }

  /** An address is shadowed by its owners and by what is mistaken for it. */
  lemma ShadowedMeans(t: seq<Peer>, ip: string)
    ensures Shadowed(t, ip) <==> !Unowned(t, ip) || Mistaken(t, ip)
    ensures Shadowed(t, ip) <==> exists k :: SeemsOwner(t, k, ip)
    ensures forall key :: Shadowed(t, ip) <==> SeemsOwner(t, key, ip) || SeemsTaken(t, key, ip)
  {
    if i :| 0 <= i < |t| && Resembles(t[i], ip) {
      assert SeemsOwner(t, t[i].key, ip);
      if t[i].route.value == ip {
        assert t[i] == Peer(t[i].key, Some(ip));
        assert Owns(t, t[i].key, ip);
      }
    }
    if k :| Owns(t, k, ip) { OwnerResembles(t, k, ip); }
  }

  lemma UnmistakenMeans(t: seq<Peer>, key: string, ip: string)
    requires !Mistaken(t, ip)
    ensures SeemsOwner(t, key, ip) <==> Owns(t, key, ip)
    ensures SeemsTaken(t, key, ip) <==> OwnedByOther(t, key, ip)
  {
    if i :| 0 <= i < |t| && t[i].key == key && Resembles(t[i], ip) { assert t[i] == Peer(key, Some(ip)); }
    if i :| 0 <= i < |t| && t[i].key != key && Resembles(t[i], ip) {
      assert t[i] == Peer(t[i].key, Some(ip));
      assert Owns(t, t[i].key, ip);
    }
    forall k | Owns(t, k, ip) ensures exists i :: 0 <= i < |t| && t[i].key == k && Resembles(t[i], ip) {
      OwnerResembles(t, k, ip);
    }
  }

  /** The search is right about an address if and only if no peer has another address that
      ends in it. */
  lemma SearchIsRightIff(t: seq<Peer>, ip: string)
    requires Listable(t) && Consistent(t) && IsPlain(ip)
    ensures SearchIsRight(t, ip) <==> !Mistaken(t, ip)
  {
    forall key
      ensures Present(Render(t), key, ip) <==> SeemsOwner(t, key, ip)
      ensures Conflict(Render(t), key, ip) <==> SeemsTaken(t, key, ip)
      ensures !Mistaken(t, ip) ==> (SeemsOwner(t, key, ip) <==> Owns(t, key, ip))
      ensures !Mistaken(t, ip) ==> (SeemsTaken(t, key, ip) <==> OwnedByOther(t, key, ip))
    {
      SearchMeans(t, key, ip);
      if !Mistaken(t, ip) { UnmistakenMeans(t, key, ip); }
    }
    if Mistaken(t, ip) {
      var i :| 0 <= i < |t| && Resembles(t[i], ip) && t[i].route.value != ip;
      assert SeemsOwner(t, t[i].key, ip);
      OneRoute(t, i, ip);
    }
  }

  lemma OneRoute(t: seq<Peer>, i: nat, ip: string)
    requires Consistent(t) && i < |t| && t[i].route != Some(ip)
    ensures !Owns(t, t[i].key, ip)
  {
  }

  lemma HostsUnmistaken(t: seq<Peer>, p: string, n: nat)
    requires IsPrefix(p) && InNetwork(t, p)
    ensures !Mistaken(t, Address(p, n))
  {
    forall i | 0 <= i < |t| && Resembles(t[i], Address(p, n)) ensures t[i].route == Some(Address(p, n)) {
      HostResembles(t, p, n, i);
    }
  }

  /** For the addresses of one /24 it always is. */
  lemma SearchExact(t: seq<Peer>, p: string, key: string, n: nat)
    requires IsPrefix(p) && InNetwork(t, p)
    ensures Present(Render(t), key, Address(p, n)) <==> Owns(t, key, Address(p, n))
    ensures Conflict(Render(t), key, Address(p, n)) <==> OwnedByOther(t, key, Address(p, n))
  {
    NetworkIsListable(t, p);
    AddressIsPlain(p, n);
    SearchMeans(t, key, Address(p, n));
    HostsUnmistaken(t, p, n);
    UnmistakenMeans(t, key, Address(p, n));
  }
}
