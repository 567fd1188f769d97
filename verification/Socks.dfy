/** The SOCKS5 entry of the local proxy (RFC 1928, sections 3 to 6): it reads the
    handshake from a stream that arrives in arbitrary fragments, dials, and bridges the
    rest of the stream. */
module Socks {
  import opened Prelude
  import opened Base64

  datatype Host = V4(addr: seq<byte>) | V6(addr: seq<byte>) | Name(addr: seq<byte>)
  datatype Target = Target(host: Host, port: int)

  /** What the handler does to the outside world, in order. */
  datatype Effect =
    | Wrote(bytes: seq<byte>)
    | Dialled(target: Target, ok: bool)
    | Bridged(rest: seq<byte>)   // the stream handed on

  function Reply(code: byte): seq<byte> { [5, code, 0, 1, 0, 0, 0, 0, 0, 0] }

  // ---- what the handler does with a whole stream ----

  function PortOf(b: seq<byte>): int
    requires |b| >= 2
  {
    b[0] as int * 256 + b[1] as int
  }

  /** From the port on: `rest` starts with it. */
  function Finish(host: Host, rest: seq<byte>, dial: Target -> bool): seq<Effect> {
    if |rest| < 2 then []
    else if PortOf(rest) == 0 then [Wrote(Reply(1))]
    else
      var t := Target(host, PortOf(rest));
      if dial(t) then [Dialled(t, true), Wrote(Reply(0)), Bridged(rest[2..])]
      else [Dialled(t, false), Wrote(Reply(1))]
  }

  /** From the request on. */
  function Request(rest: seq<byte>, dial: Target -> bool): seq<Effect> {
    if |rest| < 4 || rest[0] != 5 || rest[2] != 0 then []
    else if rest[1] != 1 then [Wrote(Reply(7))]
    else if rest[3] == 1 then
      if |rest| < 8 then [] else Finish(V4(rest[4..8]), rest[8..], dial)
    else if rest[3] == 4 then
      if |rest| < 20 then [] else Finish(V6(rest[4..20]), rest[20..], dial)
    else if rest[3] == 3 then
      if |rest| < 5 || rest[4] == 0 || |rest| < 5 + rest[4] as int then []
      else Finish(Name(rest[5..5 + rest[4] as int]), rest[5 + rest[4] as int..], dial)
    else [Wrote(Reply(8))]
  }

  /** The whole handshake; `writable` says whether the method reply can be written. */
  function Effects(input: seq<byte>, writable: bool, dial: Target -> bool): seq<Effect> {
    if |input| < 2 || input[0] != 5 || |input| < 2 + input[1] as int then []
    else
      var n := input[1] as int;
      if 0 !in input[2..2 + n] then [Wrote([5, 255])]
      else if !writable then [Wrote([5, 0])]
      else [Wrote([5, 0])] + Request(input[2 + n..], dial)
  }

  // ---- the encoding of the standard ----

  predicate ValidMethods(methods: seq<byte>) { |methods| <= 255 && 0 in methods }

  predicate ValidHost(host: Host) {
    match host
    case V4(a) => |a| == 4
    case V6(a) => |a| == 16
    case Name(a) => 1 <= |a| <= 255
  }

  predicate ValidTarget(t: Target) {
    0 < t.port < 65536 && ValidHost(t.host)
  }

  function EncodeGreeting(methods: seq<byte>): seq<byte>
    requires |methods| <= 255
  {
    [5, |methods| as byte] + methods
  }

  function EncodeHost(h: Host): seq<byte>
    requires |h.addr| <= 255
  {
    match h
    case V4(a) => [1] + a
    case V6(a) => [4] + a
    case Name(a) => [3, |a| as byte] + a
  }

  function EncodeConnect(t: Target): seq<byte>
    requires ValidTarget(t)
  {
    [5, 1, 0] + EncodeHost(t.host) + [(t.port / 256) as byte, (t.port % 256) as byte]
  }

  /** The whole of what a client sends before its own data. */
  function EncodeHandshake(methods: seq<byte>, t: Target): seq<byte>
    requires ValidMethods(methods) && ValidTarget(t)
  {
    EncodeGreeting(methods) + EncodeConnect(t)
  }

  function Success(t: Target, tail: seq<byte>): seq<Effect> {
    [Wrote([5, 0]), Dialled(t, true), Wrote([5, 0, 0, 1, 0, 0, 0, 0, 0, 0]), Bridged(tail)]
  }

  function Refusal(t: Target): seq<Effect> {
    [Wrote([5, 0]), Dialled(t, false), Wrote([5, 1, 0, 1, 0, 0, 0, 0, 0, 0])]
  }

  // ---- parsing inverts the encoding ----

  /** What comes of the encoded target, once its address has been taken apart. */
  function Dialling(t: Target, tail: seq<byte>, dial: Target -> bool): seq<Effect> {
    if dial(t) then [Dialled(t, true), Wrote(Reply(0)), Bridged(tail)] else [Dialled(t, false), Wrote(Reply(1))]
  }

  /** The fields of a request that starts with this address. */
  lemma HostFields(t: Target, tail: seq<byte>)
    requires ValidTarget(t)
    ensures var rest, host, a := EncodeConnect(t) + tail, EncodeHost(t.host), t.host.addr;
      var k := 3 + |host|;
      && k <= |rest| && rest[0] == 5 && rest[1] == 1 && rest[2] == 0 && rest[3] == host[0]
      && rest[k - |a|..k] == a && (t.host.Name? ==> rest[4] as int == |a|)
      && rest[k..] == [(t.port / 256) as byte, (t.port % 256) as byte] + tail
  {
    var port := [(t.port / 256) as byte, (t.port % 256) as byte];
    assert EncodeConnect(t) + tail == [5, 1, 0] + EncodeHost(t.host) + (port + tail);
  }

  lemma RequestInverts(t: Target, tail: seq<byte>, dial: Target -> bool)
    requires ValidTarget(t)
    ensures Request(EncodeConnect(t) + tail, dial) == Dialling(t, tail, dial)
  {
    HostFields(t, tail);
  }

  /** Every handshake the standard allows for CONNECT without authentication is
      understood: the address and port dialled are the encoded ones, and the bridge gets
      exactly the bytes after the handshake. */
  lemma HandshakeUnderstood(methods: seq<byte>, t: Target, tail: seq<byte>, dial: Target -> bool)
    requires ValidMethods(methods) && ValidTarget(t)
    ensures Effects(EncodeHandshake(methods, t) + tail, true, dial) == if dial(t) then Success(t, tail) else Refusal(t)
  {
    Regrouped(EncodeGreeting(methods), EncodeConnect(t), tail);
    GreetingInverts(methods, EncodeConnect(t) + tail, dial);
    RequestInverts(t, tail, dial);
    AfterGreeting(t, tail, dial);
  }

  lemma Regrouped(a: seq<byte>, b: seq<byte>, c: seq<byte>)
    ensures (a + b) + c == a + (b + c)
  {
  }

  lemma AfterGreeting(t: Target, tail: seq<byte>, dial: Target -> bool)
    ensures [Wrote([5, 0])] + Dialling(t, tail, dial) == if dial(t) then Success(t, tail) else Refusal(t)
  {
  }

  lemma GreetingInverts(methods: seq<byte>, more: seq<byte>, dial: Target -> bool)
    requires ValidMethods(methods)
    ensures Effects(EncodeGreeting(methods) + more, true, dial) == [Wrote([5, 0])] + Request(more, dial)
  {
    GreetingFields(methods, more);
  }

  lemma GreetingFields(methods: seq<byte>, more: seq<byte>)
    requires |methods| <= 255
    ensures var input, n := EncodeGreeting(methods) + more, |methods|;
      && |input| >= 2 + n && input[0] == 5 && input[1] as int == n
      && input[2..2 + n] == methods && input[2 + n..] == more
  {
  }

  /** The bytes of a handshake: version and methods, version, CONNECT, the address with its type (and a
      name with its length), and the port in network order. */
  function Wire(methods: seq<byte>, host: Host, hi: byte, lo: byte): seq<byte>
    requires |methods| <= 255 && ValidHost(host)
  {
    [5, |methods| as byte] + methods + [5, 1, 0]
    + (match host case V4(a) => [1] + a case V6(a) => [4] + a case Name(a) => [3, |a| as byte] + a)
    + [hi, lo]
  }

  lemma WireIsEncoding(methods: seq<byte>, host: Host, hi: byte, lo: byte)
    requires ValidMethods(methods) && ValidHost(host) && (hi != 0 || lo != 0)
    ensures Wire(methods, host, hi, lo) == EncodeHandshake(methods, Target(host, 256 * hi as int + lo as int))
  {
    WireForm([5, |methods| as byte] + methods, EncodeHost(host), [hi, lo]);
  }

  /** The same, byte by byte. */
  lemma HandshakeOnTheWire(methods: seq<byte>, host: Host, hi: byte, lo: byte, tail: seq<byte>, dial: Target -> bool)
    requires |methods| <= 255 && 0 in methods && ValidHost(host) && (hi != 0 || lo != 0)
    ensures
      var t := Target(host, 256 * hi as int + lo as int);
      Effects(Wire(methods, host, hi, lo) + tail, true, dial) ==
        if dial(t)
        then [Wrote([5, 0]), Dialled(t, true), Wrote([5, 0, 0, 1, 0, 0, 0, 0, 0, 0]), Bridged(tail)]
        else [Wrote([5, 0]), Dialled(t, false), Wrote([5, 1, 0, 1, 0, 0, 0, 0, 0, 0])]
  {
    HandshakeUnderstood(methods, Target(host, 256 * hi as int + lo as int), tail, dial);
    WireIsEncoding(methods, host, hi, lo);
  }

  lemma WireForm(a: seq<byte>, b: seq<byte>, c: seq<byte>)
    ensures a + ([5, 1, 0] + b + c) == a + [5, 1, 0] + b + c
  {
  }

  // ---- refusals ----

  /** A client that does not offer to go without authentication is told so. */
  lemma NoMethodRefused(methods: seq<byte>, more: seq<byte>, writable: bool, dial: Target -> bool)
    requires |methods| <= 255 && 0 !in methods
    ensures Effects([5, |methods| as byte] + methods + more, writable, dial) == [Wrote([5, 255])]
  {
    GreetingFields(methods, more);
  }

  /** Any command but CONNECT is refused with code 7, and any other type of address with code 8. */
  lemma RequestRefused(methods: seq<byte>, command: byte, kind: byte, more: seq<byte>, dial: Target -> bool)
    requires |methods| <= 255 && 0 in methods && (command != 1 || kind !in [1, 3, 4])
    ensures Effects([5, |methods| as byte] + methods + ([5, command, 0, kind] + more), true, dial) ==
      [Wrote([5, 0]), Wrote([5, if command != 1 then 7 else 8, 0, 1, 0, 0, 0, 0, 0, 0])]
  {
    GreetingInverts(methods, [5, command, 0, kind] + more, dial);
  }

  /** Port 0 is refused with code 1 and nothing is dialled. */
  lemma PortZeroRefused(methods: seq<byte>, host: Host, tail: seq<byte>, dial: Target -> bool)
    requires |methods| <= 255 && 0 in methods
    requires ValidHost(host)
    ensures Effects([5, |methods| as byte] + methods + ([5, 1, 0] + EncodeHost(host) + [0, 0] + tail), true, dial) ==
      [Wrote([5, 0]), Wrote([5, 1, 0, 1, 0, 0, 0, 0, 0, 0])]
  {
    GreetingInverts(methods, [5, 1, 0] + EncodeHost(host) + [0, 0] + tail, dial);
    PortZero(host, tail, dial);
  }

  lemma PortZero(host: Host, tail: seq<byte>, dial: Target -> bool)
    requires ValidHost(host)
    ensures Request([5, 1, 0] + EncodeHost(host) + [0, 0] + tail, dial) == [Wrote([5, 1, 0, 1, 0, 0, 0, 0, 0, 0])]
  {
    PortOfHost(host, tail);
  }

  lemma PortOfHost(host: Host, tail: seq<byte>)
    requires |host.addr| <= 255
    ensures var rest, k := [5, 1, 0] + EncodeHost(host) + [0, 0] + tail, 3 + |EncodeHost(host)|;
      && k <= |rest| && rest[0] == 5 && rest[1] == 1 && rest[2] == 0 && rest[3] == EncodeHost(host)[0]
      && (host.Name? ==> rest[4] as int == |host.addr|) && rest[k..] == [0, 0] + tail
  {
    assert [5, 1, 0] + EncodeHost(host) + [0, 0] + tail == [5, 1, 0] + EncodeHost(host) + ([0, 0] + tail);
  }

  /** There is no other answer: nothing, a method reply, one refusal after it, or one of the two
      outcomes of a dial. */
  lemma EveryOutcome(input: seq<byte>, writable: bool, dial: Target -> bool)
    ensures var e := Effects(input, writable, dial);
      || e == [] || e == [Wrote([5, 255])] || e == [Wrote([5, 0])]
      || (|e| == 2 && e[0] == Wrote([5, 0]) && Refuses(e[1]))
      || (|e| == 4 && e[1].Dialled? && e[3].Bridged? && e == Success(e[1].target, e[3].rest))
      || (|e| == 3 && e[1].Dialled? && e == Refusal(e[1].target))
  {
    if |input| >= 2 && |input| >= 2 + input[1] as int {
      RequestOutcome(input[2 + input[1] as int..], dial);
    }
  }

  ghost predicate Refuses(e: Effect) {
    || e == Wrote([5, 1, 0, 1, 0, 0, 0, 0, 0, 0])
    || e == Wrote([5, 7, 0, 1, 0, 0, 0, 0, 0, 0])
    || e == Wrote([5, 8, 0, 1, 0, 0, 0, 0, 0, 0])
  }

  lemma RequestOutcome(rest: seq<byte>, dial: Target -> bool)
    ensures var r := Request(rest, dial);
      || r == [] || (|r| == 1 && Refuses(r[0]))
      || (|r| == 3 && r[0].Dialled? && r[2].Bridged? && [Wrote([5, 0])] + r == Success(r[0].target, r[2].rest))
      || (|r| == 2 && r[0].Dialled? && [Wrote([5, 0])] + r == Refusal(r[0].target))
  {
  }

  /** Conversely the handler dials only for such a handshake: whatever was dialled, the
      input is its encoding followed by the rest. */
  lemma DialMeansHandshake(input: seq<byte>, writable: bool, dial: Target -> bool, e: Effect)
    returns (methods: seq<byte>, tail: seq<byte>)
    requires e in Effects(input, writable, dial) && e.Dialled?
    ensures writable && ValidMethods(methods) && ValidTarget(e.target)
    ensures input == EncodeHandshake(methods, e.target) + tail
    ensures Effects(input, writable, dial) == if dial(e.target) then Success(e.target, tail) else Refusal(e.target)
  {
    var rest;
    methods, rest := GreetingOf(input, writable, dial, e);
    tail := RequestOf(rest, dial, e);
    Reassembled(input, methods, rest, e.target, tail, dial);
  }

  lemma Reassembled(
    input: seq<byte>, methods: seq<byte>, rest: seq<byte>, t: Target, tail: seq<byte>, dial: Target -> bool)
    requires ValidMethods(methods) && ValidTarget(t)
    requires input == EncodeGreeting(methods) + rest && rest == EncodeConnect(t) + tail
    ensures input == EncodeHandshake(methods, t) + tail
    ensures Effects(input, true, dial) == if dial(t) then Success(t, tail) else Refusal(t)
  {
    Regrouped(EncodeGreeting(methods), EncodeConnect(t), tail);
    HandshakeUnderstood(methods, t, tail, dial);
  }

  lemma GreetingOf(input: seq<byte>, writable: bool, dial: Target -> bool, e: Effect)
    returns (methods: seq<byte>, rest: seq<byte>)
    requires e in Effects(input, writable, dial) && e.Dialled?
    ensures writable && ValidMethods(methods) && input == EncodeGreeting(methods) + rest
    ensures e in Request(rest, dial)
  {
    var n := input[1] as int;
    methods, rest := input[2..2 + n], input[2 + n..];
    GreetingForm(input);
    assert Effects(input, writable, dial) == [Wrote([5, 0])] + Request(rest, dial);
  }

  lemma GreetingForm(input: seq<byte>)
    requires |input| >= 2 && input[0] == 5 && |input| >= 2 + input[1] as int
    ensures var n := input[1] as int;
      input == EncodeGreeting(input[2..2 + n]) + input[2 + n..]
  {
    var n := input[1] as int;
    assert [5, n as byte] == input[..2];
    assert input == input[..2] + input[2..2 + n] + input[2 + n..];
  }

  /** A complete request splits into the fixed part, the encoded host and the rest. */
  ghost predicate Splits(rest: seq<byte>, host: Host, k: nat) {
    && k <= |rest| && |host.addr| <= 255 && ValidTarget(Target(host, 1))
    && rest == [5, 1, 0] + EncodeHost(host) + rest[k..]
  }

  lemma RequestSplits(rest: seq<byte>, dial: Target -> bool, i: nat) returns (host: Host, k: nat)
    requires i < |Request(rest, dial)| && Request(rest, dial)[i].Dialled?
    ensures Splits(rest, host, k) && Request(rest, dial) == Finish(host, rest[k..], dial)
  {
    if rest[3] == 1 {
      host, k := V4(rest[4..8]), 8;
      assert rest[3..k] == [1] + rest[4..k];
    } else if rest[3] == 4 {
      host, k := V6(rest[4..20]), 20;
      assert rest[3..k] == [4] + rest[4..k];
    } else {
      k := 5 + rest[4] as int;
      host := Name(rest[5..k]);
      assert rest[3..k] == [3, rest[4]] + rest[5..k];
    }
    SplitsAt(rest, host, k);
  }

  lemma SplitsAt(rest: seq<byte>, host: Host, k: nat)
    requires 3 <= k <= |rest| && rest[0] == 5 && rest[1] == 1 && rest[2] == 0
    requires |host.addr| <= 255 && ValidTarget(Target(host, 1)) && EncodeHost(host) == rest[3..k]
    ensures Splits(rest, host, k)
  {
    assert rest[..3] == [5, 1, 0];
    assert rest == rest[..3] + rest[3..k] + rest[k..];
  }

  lemma RequestOf(rest: seq<byte>, dial: Target -> bool, e: Effect) returns (tail: seq<byte>)
    requires e in Request(rest, dial) && e.Dialled?
    ensures ValidTarget(e.target) && rest == EncodeConnect(e.target) + tail
  {
    var i: nat :| i < |Request(rest, dial)| && Request(rest, dial)[i] == e;
    var host, k := RequestSplits(rest, dial, i);
    FinishDials(host, rest[k..], dial, i);
    tail := rest[k..][2..];
  }

  lemma FinishDials(host: Host, rest: seq<byte>, dial: Target -> bool, i: nat)
    requires i < |Finish(host, rest, dial)| && Finish(host, rest, dial)[i].Dialled?
    ensures var t := Finish(host, rest, dial)[i].target;
      && t.host == host && 0 < t.port < 65536 && |rest| >= 2
      && rest == [(t.port / 256) as byte, (t.port % 256) as byte] + rest[2..]
  {
    assert rest == [rest[0], rest[1]] + rest[2..];
  }

  /** What the request part can amount to: nothing, one refusal, a failed dial, or a dial
      that worked, a success reply and a bridge. */
  ghost predicate Shaped(r: seq<Effect>) {
    || r == []
    || (|r| == 1 && r[0].Wrote? && !SaysSuccess(r[0]))
    || (|r| == 2 && r[0].Dialled? && !r[0].ok && r[1] == Wrote(Reply(1)))
    || (|r| == 3 && r[0].Dialled? && r[0].ok && r[1] == Wrote(Reply(0)) && r[2].Bridged?)
  }

  /** The request from its address on, for an address of fixed length. */
  function Address(rest: seq<byte>, six: bool, dial: Target -> bool): seq<Effect> {
    var size := if six then 16 else 4;
    if |rest| < size then []
    else Finish(if six then V6(rest[..size]) else V4(rest[..size]), rest[size..], dial)
  }

  /** The request from its address on, for a name. */
  function Named(rest: seq<byte>, dial: Target -> bool): seq<Effect> {
    if |rest| < 1 || rest[0] == 0 then []
    else
      var n, more := rest[0] as int, rest[1..];
      if |more| < n then [] else Finish(Name(more[..n]), more[n..], dial)
  }

  /** The request part, read in pieces. */
  lemma RequestParts(rest: seq<byte>, dial: Target -> bool)
    ensures Request(rest, dial) ==
      if |rest| < 4 || rest[0] != 5 || rest[2] != 0 then []
      else if rest[1] != 1 then [Wrote(Reply(7))]
      else if rest[3] == 1 || rest[3] == 4 then Address(rest[4..], rest[3] == 4, dial)
      else if rest[3] == 3 then Named(rest[4..], dial)
      else [Wrote(Reply(8))]
  {
    if |rest| >= 8 { assert rest[4..][..4] == rest[4..8] && rest[4..][4..] == rest[8..]; }
    if |rest| >= 20 { assert rest[4..][..16] == rest[4..20] && rest[4..][16..] == rest[20..]; }
    if |rest| >= 5 {
      var n := rest[4] as int;
      assert rest[4..][1..] == rest[5..];
      if |rest| >= 5 + n { assert rest[5..][..n] == rest[5..5 + n] && rest[5..][n..] == rest[5 + n..]; }
    }
  }

  /** The whole handshake, read in pieces. */
  lemma EffectsParts(input: seq<byte>, writable: bool, dial: Target -> bool)
    ensures Effects(input, writable, dial) ==
      if |input| < 2 || input[0] != 5 || |input[2..]| < input[1] as int then []
      else if 0 !in input[2..][..input[1] as int] then [Wrote([5, 255])]
      else if !writable then [Wrote([5, 0])]
      else [Wrote([5, 0])] + Request(input[2..][input[1] as int..], dial)
  {
    if |input| >= 2 && |input| >= 2 + input[1] as int {
      var n := input[1] as int;
      assert input[2..][..n] == input[2..2 + n] && input[2..][n..] == input[2 + n..];
    }
  }

  /** A reply of ten bytes whose second says "succeeded". */
  predicate SaysSuccess(e: Effect) { e.Wrote? && |e.bytes| == 10 && e.bytes[1] == 0 }

  /** At most one dial, and a success reply or a bridge only behind a dial that worked. */
  lemma EffectsInOrder(input: seq<byte>, writable: bool, dial: Target -> bool, i: nat, j: nat)
    requires i < |Effects(input, writable, dial)| && j < |Effects(input, writable, dial)|
    ensures var e := Effects(input, writable, dial);
      && (e[i].Dialled? && e[j].Dialled? ==> i == j)
      && (SaysSuccess(e[i]) || e[i].Bridged? ==> exists k :: 0 <= k < i && e[k].Dialled? && e[k].ok)
  {
    var e := Effects(input, writable, dial);
    if |e| > 1 {
      var r := Request(input[2 + input[1] as int..], dial);
      OrderOfShaped(e, r, i, j);
    }
  }

  lemma OrderOfShaped(e: seq<Effect>, r: seq<Effect>, i: nat, j: nat)
    requires Shaped(r) && e == [Wrote([5, 0])] + r && i < |e| && j < |e|
    ensures e[i].Dialled? && e[j].Dialled? ==> i == j
    ensures SaysSuccess(e[i]) || e[i].Bridged? ==> exists k :: 0 <= k < i && e[k].Dialled? && e[k].ok
  {
    if SaysSuccess(e[i]) || e[i].Bridged? { assert e[1].Dialled? && e[1].ok; }
  }

  // ---- reading a fragmented stream ----

  function Flat(fragments: seq<seq<byte>>): seq<byte> {
    if fragments == [] then [] else fragments[0] + Flat(fragments[1..])
  }

  /** Taking some bytes out of the first fragment. */
  lemma FlatSplit(fragments: seq<seq<byte>>, take: nat)
    requires fragments != [] && take <= |fragments[0]|
    ensures var f := fragments[0];
      && Flat(fragments) == f[..take] + Flat([f[take..]] + fragments[1..])
      && (take == |f| ==> Flat(fragments) == f[..take] + Flat(fragments[1..]))
  {
    var f := fragments[0];
    assert f == f[..take] + f[take..];
    assert ([f[take..]] + fragments[1..])[1..] == fragments[1..];
  }

  lemma Regroup(a: seq<byte>, b: seq<byte>, c: seq<byte>)
    ensures a + (b + c) == a + b + c
  {
  }

  /** A client connection: what is still to arrive, fragment by fragment, and what the
      handler has done. */
  class Conn {
    var fragments: seq<seq<byte>>
    var effects: seq<Effect>

    constructor (arriving: seq<seq<byte>>)
      ensures fragments == arriving && effects == []
    {
      fragments, effects := arriving, [];
    }

    /** Up to n bytes, over as many fragments as it takes. */
    method Fill(arriving: seq<seq<byte>>, n: nat) returns (got: seq<byte>, left: seq<seq<byte>>)
      ensures |got| <= n && Flat(arriving) == got + Flat(left)
      ensures |got| < n ==> left == []
    {
      got, left := [], arriving;
      while |got| < n && left != []
        invariant |got| <= n && Flat(arriving) == got + Flat(left)
        decreases |left|, n - |got|
      {
        var f := left[0];
        var take := if |f| < n - |got| then |f| else n - |got|;
        FlatSplit(left, take);
        Regroup(got, f[..take], Flat([f[take..]] + left[1..]));
        Regroup(got, f[..take], Flat(left[1..]));
        got := got + f[..take];
        if take == |f| {
          left := left[1..];
        } else {
          left := [f[take..]] + left[1..];
        }
      }
    }

    /** Read exactly n bytes; fails at the end of the stream. */
    method ReadFull(n: nat) returns (ok: bool, got: seq<byte>)
      modifies this`fragments
      ensures ok <==> |Flat(old(fragments))| >= n
      ensures ok ==> got == Flat(old(fragments))[..n] && Flat(fragments) == Flat(old(fragments))[n..]
    {
      got, fragments := Fill(fragments, n);
      ok := |got| == n;
    }

    /** Look at the first byte without consuming it. */
    method Peek() returns (first: Option<byte>)
      modifies this`fragments
      ensures Flat(fragments) == Flat(old(fragments))
      ensures first == if Flat(fragments) == [] then None else Some(Flat(fragments)[0])
    {
      while fragments != [] && fragments[0] == []
        invariant Flat(fragments) == Flat(old(fragments))
        decreases |fragments|
      {
        fragments := fragments[1..];
      }
      first := if fragments == [] then None else Some(fragments[0][0]);
    }

    method Perform(e: Effect)
      modifies this`effects
      ensures effects == old(effects) + [e]
    {
      effects := effects + [e];
    }

    /** The request part of the handler, one read after the other. */
    method ServeRequest(dial: Target -> bool)
      modifies this
      ensures effects == old(effects) + Request(Flat(old(fragments)), dial)
    {
      RequestParts(Flat(fragments), dial);
      var ok, request := ReadFull(4);
      if !ok || request[0] != 5 || request[2] != 0 {
        return;
      }
      if request[1] != 1 {
        Perform(Wrote(Reply(7)));
        return;
      }
      if request[3] == 1 || request[3] == 4 {
        ServeAddress(request[3] == 4, dial);
      } else if request[3] == 3 {
        ServeName(dial);
      } else {
        Perform(Wrote(Reply(8)));
      }
    }

    method ServeAddress(six: bool, dial: Target -> bool)
      modifies this
      ensures effects == old(effects) + Address(Flat(old(fragments)), six, dial)
    {
      var ok, ip := ReadFull(if six then 16 else 4);
      if ok {
        ServeTarget(if six then V6(ip) else V4(ip), dial);
      }
    }

    method ServeName(dial: Target -> bool)
      modifies this
      ensures effects == old(effects) + Named(Flat(old(fragments)), dial)
    {
      var ok, size := ReadFull(1);
      if !ok || size[0] == 0 {
        return;
      }
      var named, name := ReadFull(size[0] as int);
      if named {
        ServeTarget(Name(name), dial);
      }
    }

    method ServeTarget(host: Host, dial: Target -> bool)
      modifies this
      ensures effects == old(effects) + Finish(host, Flat(old(fragments)), dial)
    {
      var ok, port := ReadFull(2);
      if !ok {
        return;
      }
      if PortOf(port) == 0 {
        Perform(Wrote(Reply(1)));
        return;
      }
      var t := Target(host, PortOf(port));
      var connected := dial(t);
      Perform(Dialled(t, connected));
      if !connected {
        Perform(Wrote(Reply(1)));
        return;
      }
      Perform(Wrote(Reply(0)));
      Perform(Bridged(Flat(fragments)));
    }

    /** Is "no authentication" among the methods? */
    method Offers(methods: seq<byte>) returns (allowed: bool)
      ensures allowed <==> 0 in methods
    {
      allowed := false;
      var i := 0;
      while i < |methods|
        invariant 0 <= i <= |methods| && (allowed <==> 0 in methods[..i])
      {
        if methods[i] == 0 {
          allowed := true;
        }
        i := i + 1;
      }
      assert methods[..i] == methods;
    }

    /** The handler does the same whatever the fragments: it depends on their concatenation only. */
    method ServeSocks(writable: bool, dial: Target -> bool)
      modifies this
      ensures effects == old(effects) + Effects(Flat(old(fragments)), writable, dial)
    {
      EffectsParts(Flat(fragments), writable, dial);
      var ok, greeting := ReadFull(2);
      if !ok || greeting[0] != 5 {
        return;
      }
      var more, methods := ReadFull(greeting[1] as int);
      if !more {
        return;
      }
      var allowed := Offers(methods);
      if !allowed {
        Perform(Wrote([5, 255]));
        return;
      }
      Perform(Wrote([5, 0]));
      if writable {
        ServeRequest(dial);
      }
    }

    /** The dispatch on the first byte: a SOCKS client is served here, anything else is handed
        to the HTTP proxy with its stream untouched. */
    method Serve(writable: bool, dial: Target -> bool) returns (http: bool)
      modifies this
      ensures http <==> Flat(old(fragments)) != [] && Flat(old(fragments))[0] != 5
      ensures http ==> Flat(fragments) == Flat(old(fragments)) && effects == old(effects)
      ensures !http ==> effects == old(effects) + Effects(Flat(old(fragments)), writable, dial)
    {
      var first := Peek();
      if first.None? {
        return false;
      }
      if first.value == 5 {
        ServeSocks(writable, dial);
        return false;
      }
      http := true;
    }
  }
}
