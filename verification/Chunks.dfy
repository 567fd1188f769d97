/** Framing of the messages a remote session sends, and their reassembly in the
    browser. A message of more than 40000 bytes travels as base64 chunks of 24000
    bytes; the browser collects the chunks of up to four messages at a time. */
module Chunks {
  import opened Prelude
  import opened Base64
  import opened Text

  const PLAIN_LIMIT := 40000
  const CHUNK := 24000
  const MESSAGE_LIMIT := 4 * 1024 * 1024
  const STREAMS := 4

  datatype Frame =
    | Plain(body: seq<byte>)
    | Chunk(id: nat, data: string, last: bool)

  // ---- the sending side ----

  function Min(a: int, b: int): int { if a < b then a else b }

  function ChunkAt(b: seq<byte>, id: nat, pos: nat): Frame
    requires pos < |b|
  {
    var end := Min(pos + CHUNK, |b|);
    Chunk(id, Encode(b[pos..end]), end == |b|)
  }

  function ChunksFrom(b: seq<byte>, id: nat, pos: nat): seq<Frame>
    decreases |b| - pos
  {
    if pos >= |b| then [] else [ChunkAt(b, id, pos)] + ChunksFrom(b, id, pos + CHUNK)
  }

  /** The frames of one message. */
  function Frames(b: seq<byte>, id: nat): seq<Frame> {
    if |b| > PLAIN_LIMIT then ChunksFrom(b, id, 0) else [Plain(b)]
  }

  lemma OneChunkMore(sent: seq<Frame>, b: seq<byte>, id: nat, pos: nat)
    requires pos < |b|
    ensures sent + ChunksFrom(b, id, pos) == sent + [ChunkAt(b, id, pos)] + ChunksFrom(b, id, pos + CHUNK)
  {
  }

  method SendChunks(b: seq<byte>, id: nat) returns (frames: seq<Frame>)
    ensures frames == ChunksFrom(b, id, 0)
  {
    frames := [];
    var pos := 0;
    while pos < |b|
      invariant 0 <= pos && frames + ChunksFrom(b, id, pos) == ChunksFrom(b, id, 0)
      decreases |b| - pos
    {
      var end := pos + CHUNK;
      if end > |b| {
        end := |b|;
      }
      OneChunkMore(frames, b, id, pos);
      frames := frames + [Chunk(id, Encode(b[pos..end]), end == |b|)];
      pos := pos + CHUNK;
    }
  }

  method Send(b: seq<byte>, id: nat) returns (frames: seq<Frame>)
    ensures frames == Frames(b, id)
  {
    if |b| > PLAIN_LIMIT {
      frames := SendChunks(b, id);
    } else {
      frames := [Plain(b)];
    }
  }

  /** Length of a frame's text: Go writes the keys of the map in alphabetical order. */
  function WireLength(f: Frame): nat {
    match f
    case Plain(b) => |b|
    case Chunk(id, data, last) =>
      |"{\"chunk\":" + Decimal(id) + ",\"data\":\"" + data + "\",\"last\":" + (if last then "true" else "false")
       + ",\"type\":\"chunk\"}"|
  }

  lemma {:induction false} ChunksAreSmall(b: seq<byte>, id: nat, pos: nat, i: nat)
    requires id < Pow10(19) && i < |ChunksFrom(b, id, pos)|
    ensures WireLength(ChunksFrom(b, id, pos)[i]) < 48 * 1024
    decreases |b| - pos
  {
    if i == 0 {
      DecimalLength(id, 19);
      EncodedLength(b[pos..Min(pos + CHUNK, |b|)]);
    } else {
      ChunksAreSmall(b, id, pos + CHUNK, i - 1);
    }
  }

  /** No frame reaches 48 KiB, whatever the message and its 64-bit id. */
  lemma EveryFrameIsSmall(b: seq<byte>, id: nat, i: nat)
    requires id < Pow10(19) && i < |Frames(b, id)|
    ensures WireLength(Frames(b, id)[i]) < 48 * 1024
  {
    if |b| > PLAIN_LIMIT { ChunksAreSmall(b, id, 0, i); }
  }

  /** The piece with this number, counted from 0. */
  function Piece(b: seq<byte>, id: nat, k: nat): Frame
    requires 24000 * k < |b|
  {
    Chunk(id, Encode(b[24000 * k..Min(24000 * k + 24000, |b|)]), 24000 * k + 24000 >= |b|)
  }

  lemma {:induction false} ChunkCount(b: seq<byte>, id: nat, pos: nat)
    requires pos < |b|
    ensures var n := |ChunksFrom(b, id, pos)|; pos + 24000 * n - 24000 < |b| <= pos + 24000 * n
    decreases |b| - pos
  {
    if pos + CHUNK < |b| { ChunkCount(b, id, pos + CHUNK); }
  }

  lemma {:induction false} ChunkNumber(b: seq<byte>, id: nat, pos: nat, i: nat)
    requires i < |ChunksFrom(b, id, pos)|
    ensures pos + 24000 * i < |b| && ChunksFrom(b, id, pos)[i] == ChunkAt(b, id, pos + 24000 * i)
    decreases i
  {
    if i > 0 { ChunkNumber(b, id, pos + CHUNK, i - 1); }
  }

  /** A message of at most 40000 bytes travels as it is; a longer one in as many pieces of 24000 bytes as
      it takes, in order, of which the last is marked. */
  lemma FramesMean(b: seq<byte>, id: nat)
    ensures |b| <= 40000 ==> Frames(b, id) == [Plain(b)]
    ensures |b| > 40000 ==>
      var fs := Frames(b, id);
      && 24000 * |fs| - 24000 < |b| <= 24000 * |fs|
      && forall i :: 0 <= i < |fs| ==> 24000 * i < |b| && fs[i] == Piece(b, id, i)
  {
    if |b| > 40000 {
      ChunkCount(b, id, 0);
      forall i | 0 <= i < |Frames(b, id)| ensures 24000 * i < |b| && Frames(b, id)[i] == Piece(b, id, i) {
        ChunkNumber(b, id, 0, i);
      }
    }
  }

  // ---- the receiving side ----

  datatype Part = Part(buffers: seq<seq<byte>>, size: nat)

  datatype Receiver = Receiver(parts: map<int, Part>, closed: bool, delivered: seq<seq<byte>>)

  function Concat(buffers: seq<seq<byte>>): seq<byte> {
    if buffers == [] then [] else Concat(buffers[..|buffers| - 1]) + buffers[|buffers| - 1]
  }

  function Fail(r: Receiver): Receiver { r.(parts := map[], closed := true) }

  function PartOf(r: Receiver, key: int): Part {
    if key in r.parts then r.parts[key] else Part([], 0)
  }

  /** Add a decoded piece to what is collected under key. */
  function Collect(r: Receiver, key: int, b: seq<byte>, last: bool): Receiver {
    var part := Part(PartOf(r, key).buffers + [b], PartOf(r, key).size + |b|);
    if part.size > MESSAGE_LIMIT || |r.parts.Keys + {key}| > STREAMS then Fail(r)
    else if last then r.(parts := r.parts - {key}, delivered := r.delivered + [Concat(part.buffers)])
    else r.(parts := r.parts[key := part])
  }

  /** What the browser does with a frame. Chunk ids are JavaScript numbers, so the id it
      sees is the sent one after an unknown rounding. */
  function Received(r: Receiver, f: Frame, round: nat -> int): Receiver {
    if r.closed then r else
    match f
    case Plain(b) => r.(delivered := r.delivered + [b])
    case Chunk(id, data, last) =>
      var b := Decode(data);
      if b.None? then Fail(r) else Collect(r, round(id), b.value, last)
  }

  function ReceivedAll(r: Receiver, fs: seq<Frame>, round: nat -> int): Receiver
    decreases |fs|
  {
    if fs == [] then r else ReceivedAll(Received(r, fs[0], round), fs[1..], round)
  }

  const IDLE := Receiver(map[], false, [])

  // ---- one message after the other ----

  /** The receiver has the first pos bytes of b under key. */
  ghost predicate Collected(r: Receiver, key: int, b: seq<byte>, pos: nat) {
    && pos <= |b| && PartOf(r, key).size == pos && Concat(PartOf(r, key).buffers) == b[..pos]
    && |r.parts.Keys + {key}| <= STREAMS
  }

  lemma ConcatOneMore(buffers: seq<seq<byte>>, b: seq<byte>)
    ensures Concat(buffers + [b]) == Concat(buffers) + b
  {
    assert (buffers + [b])[..|buffers|] == buffers;
  }

  /** The browser sees the bytes that were cut out of the message. */
  lemma ChunkDecodes(r: Receiver, b: seq<byte>, id: nat, pos: nat, round: nat -> int)
    requires !r.closed && pos < |b|
    ensures var end := Min(pos + CHUNK, |b|);
      Received(r, ChunkAt(b, id, pos), round) == Collect(r, round(id), b[pos..end], end == |b|)
  {
    RoundTrip(b[pos..Min(pos + CHUNK, |b|)]);
  }

  lemma PieceCollected(r: Receiver, key: int, b: seq<byte>, pos: nat, end: nat)
    requires Collected(r, key, b, pos) && pos <= end <= |b| && end <= MESSAGE_LIMIT
    ensures end == |b| ==>
      Collect(r, key, b[pos..end], true) == r.(parts := r.parts - {key}, delivered := r.delivered + [b])
    ensures var t := Collect(r, key, b[pos..end], false);
      t == r.(parts := r.parts[key := PartOf(t, key)]) && Collected(t, key, b, end) && key in t.parts
  {
    var piece := b[pos..end];
    ConcatOneMore(PartOf(r, key).buffers, piece);
    assert b[..pos] + piece == b[..end];
    if end == |b| { assert b[..end] == b; }
    var t := Collect(r, key, piece, false);
    assert t.parts.Keys + {key} == r.parts.Keys + {key};
  }

  /** One chunk of a message that is not too long. */
  lemma ChunkArrives(r: Receiver, b: seq<byte>, id: nat, pos: nat, round: nat -> int)
    requires !r.closed && pos < |b| <= MESSAGE_LIMIT && Collected(r, round(id), b, pos)
    ensures var key, end := round(id), Min(pos + CHUNK, |b|);
      var t := Received(r, ChunkAt(b, id, pos), round);
      if end == |b| then t == r.(parts := r.parts - {key}, delivered := r.delivered + [b])
      else
        && t == r.(parts := r.parts[key := PartOf(t, key)]) && Collected(t, key, b, end) && key in t.parts
        && pos + CHUNK < |b|
  {
    ChunkDecodes(r, b, id, pos, round);
    PieceCollected(r, round(id), b, pos, Min(pos + CHUNK, |b|));
  }

  lemma {:induction false} ChunksArrive(r: Receiver, b: seq<byte>, id: nat, pos: nat, round: nat -> int)
    requires !r.closed && pos < |b| <= MESSAGE_LIMIT && Collected(r, round(id), b, pos)
    ensures ReceivedAll(r, ChunksFrom(b, id, pos), round)
         == r.(parts := r.parts - {round(id)}, delivered := r.delivered + [b])
    decreases |b| - pos
  {
    var key := round(id);
    var fs := ChunksFrom(b, id, pos);
    ChunkArrives(r, b, id, pos, round);
    var t := Received(r, fs[0], round);
    assert fs[1..] == ChunksFrom(b, id, pos + CHUNK);
    if Min(pos + CHUNK, |b|) < |b| {
      ChunksArrive(t, b, id, pos + CHUNK, round);
      assert t.parts - {key} == r.parts - {key};
    }
  }

  lemma {:induction false} ClosedStaysClosed(r: Receiver, fs: seq<Frame>, round: nat -> int)
    requires r.closed
    ensures ReceivedAll(r, fs, round) == r
    decreases |fs|
  {
    if fs != [] { ClosedStaysClosed(r, fs[1..], round); }
  }

  /** A message beyond 4 MiB is cut off: the link closes and nothing of it is delivered. */
  lemma {:induction false} TooLongFails(r: Receiver, b: seq<byte>, id: nat, pos: nat, round: nat -> int)
    requires !r.closed && pos <= MESSAGE_LIMIT < |b| && Collected(r, round(id), b, pos)
    ensures ReceivedAll(r, ChunksFrom(b, id, pos), round) == Fail(r)
    decreases |b| - pos
  {
    var key, end := round(id), Min(pos + CHUNK, |b|);
    var fs := ChunksFrom(b, id, pos);
    var t := Received(r, fs[0], round);
    ChunkDecodes(r, b, id, pos, round);
    assert fs[1..] == ChunksFrom(b, id, pos + CHUNK);
    if end > MESSAGE_LIMIT {
      ClosedStaysClosed(t, fs[1..], round);
    } else {
      PieceCollected(r, key, b, pos, end);
      TooLongFails(t, b, id, pos + CHUNK, round);
    }
  }

  /** A link with room for one more stream under a key that is not in use receives a
      message if and only if it has at most 4 MiB, and is otherwise left as it was. */
  lemma OneMessage(r: Receiver, b: seq<byte>, id: nat, round: nat -> int)
    requires !r.closed && round(id) !in r.parts && |r.parts| < 4
    ensures ReceivedAll(r, Frames(b, id), round)
         == if |b| <= 4 * 1024 * 1024 then r.(delivered := r.delivered + [b]) else r.(parts := map[], closed := true)
  {
    assert b[..0] == [];
    assert |r.parts.Keys + {round(id)}| == |r.parts| + 1;
    if |b| > MESSAGE_LIMIT {
      TooLongFails(r, b, id, 0, round);
    } else if |b| > PLAIN_LIMIT {
      ChunksArrive(r, b, id, 0, round);
      assert r.parts - {round(id)} == r.parts;
    }
  }

  function Flatten(parts: seq<seq<Frame>>): seq<Frame>
    decreases |parts|
  {
    if parts == [] then [] else parts[0] + Flatten(parts[1..])
  }

  /** The frames of several messages, one message after the other. */
  function AllFrames(messages: seq<seq<byte>>, ids: seq<nat>): seq<Frame>
    requires |ids| == |messages|
  {
    Flatten(seq(|messages|, i requires 0 <= i < |messages| => Frames(messages[i], ids[i])))
  }

  lemma {:induction false} ReceivedConcat(r: Receiver, f: seq<Frame>, g: seq<Frame>, round: nat -> int)
    ensures ReceivedAll(r, f + g, round) == ReceivedAll(ReceivedAll(r, f, round), g, round)
    decreases |f|
  {
    if f == [] {
      assert f + g == g;
    } else {
      assert (f + g)[0] == f[0] && (f + g)[1..] == f[1..] + g;
      ReceivedConcat(Received(r, f[0], round), f[1..], g, round);
    }
  }

  /** If each part takes the receiver from one state to the next, all of them in turn take it
      from the first to the last. */
  lemma {:induction false} InTurn(
    run: (Receiver, seq<Frame>) -> Receiver, states: seq<Receiver>, parts: seq<seq<Frame>>)
    requires forall r :: run(r, []) == r
    requires forall r, f, g :: run(r, f + g) == run(run(r, f), g)
    requires |states| == |parts| + 1 && forall i :: 0 <= i < |parts| ==> run(states[i], parts[i]) == states[i + 1]
    ensures run(states[0], Flatten(parts)) == states[|parts|]
    decreases |parts|
  {
    if parts != [] {
      forall i | 0 <= i < |parts[1..]| ensures run(states[1..][i], parts[1..][i]) == states[1..][i + 1] {
        assert run(states[i + 1], parts[i + 1]) == states[i + 2];
      }
      InTurn(run, states[1..], parts[1..]);
    }
  }

  /** A link with nothing half collected. */
  function Ready(delivered: seq<seq<byte>>): Receiver { Receiver(map[], false, delivered) }

  lemma NextMessage(messages: seq<seq<byte>>, i: nat, id: nat, round: nat -> int)
    requires i < |messages| && |messages[i]| <= MESSAGE_LIMIT
    ensures ReceivedAll(Ready(messages[..i]), Frames(messages[i], id), round) == Ready(messages[..i + 1])
  {
    OneMessage(Ready(messages[..i]), messages[i], id, round);
    assert messages[..i] + [messages[i]] == messages[..i + 1];
  }

  /** Messages sent one at a time arrive exactly, in order, whatever their ids: even
      equal ids, or ids that the browser rounds to the same number. */
  lemma SequentialRoundTrip(messages: seq<seq<byte>>, ids: seq<nat>, round: nat -> int)
    requires |ids| == |messages|
    requires forall i :: 0 <= i < |messages| ==> |messages[i]| <= 4 * 1024 * 1024
    ensures ReceivedAll(IDLE, AllFrames(messages, ids), round) == IDLE.(delivered := messages)
  {
    var n := |messages|;
    var run := (r: Receiver, fs: seq<Frame>) => ReceivedAll(r, fs, round);
    var states := seq(n + 1, i requires 0 <= i <= n => Ready(messages[..i]));
    var parts := seq(n, i requires 0 <= i < n => Frames(messages[i], ids[i]));
    forall r, f, g ensures run(r, f + g) == run(run(r, f), g) { ReceivedConcat(r, f, g, round); }
    forall i | 0 <= i < n ensures run(states[i], parts[i]) == states[i + 1] {
      NextMessage(messages, i, ids[i], round);
    }
    InTurn(run, states, parts);
    assert messages[..0] == [] && messages[..n] == messages;
  }

  // ---- interleaved messages ----

  datatype Stream = Stream(id: nat, body: seq<byte>, pos: nat)

  /** Several senders at once. `done` lists the messages in the order they were finished. */
  datatype Senders = Senders(streams: map<int, Stream>, done: seq<seq<byte>>)

  datatype Op =
    | Whole(body: seq<byte>)            // a message that needs no chunks
    | Open(id: nat, body: seq<byte>)    // first chunk of a long message
    | Continue(key: int)                // next chunk of an unfinished one

  /** A new stream needs a key no unfinished one has, and at most four are unfinished. */
  predicate MayOpen(s: Senders, id: nat, body: seq<byte>, round: nat -> int) {
    round(id) !in s.streams && |s.streams| < STREAMS && PLAIN_LIMIT < |body| <= MESSAGE_LIMIT
  }

  function Advance(s: Senders, key: int, st: Stream): (Senders, seq<Frame>)
    requires st.pos < |st.body|
  {
    var f := ChunkAt(st.body, st.id, st.pos);
    if f.last then (Senders(s.streams - {key}, s.done + [st.body]), [f])
    else (s.(streams := s.streams[key := st.(pos := st.pos + CHUNK)]), [f])
  }

  function Emit(s: Senders, op: Op, round: nat -> int): (Senders, seq<Frame>) {
    match op
    case Whole(b) => if |b| <= PLAIN_LIMIT then (s.(done := s.done + [b]), [Plain(b)]) else (s, [])
    case Open(id, b) =>
      if MayOpen(s, id, b, round) then Advance(s, round(id), Stream(id, b, 0)) else (s, [])
    case Continue(key) =>
      if key in s.streams && s.streams[key].pos < |s.streams[key].body| then Advance(s, key, s.streams[key])
      else (s, [])
  }

  function Interleave(s: Senders, r: Receiver, ops: seq<Op>, round: nat -> int): (Senders, Receiver)
    decreases |ops|
  {
    if ops == [] then (s, r) else
      var next := Emit(s, ops[0], round);
      Interleave(next.0, ReceivedAll(r, next.1, round), ops[1..], round)
  }

  /** Receiver and senders agree on every unfinished stream. */
  ghost predicate InStep(s: Senders, r: Receiver, round: nat -> int) {
    && !r.closed && r.delivered == s.done && r.parts.Keys == s.streams.Keys && |s.streams| <= STREAMS
    && forall key :: key in s.streams ==>
         var st := s.streams[key];
         && round(st.id) == key && st.pos < |st.body| <= MESSAGE_LIMIT
         && PartOf(r, key).size == st.pos && Concat(PartOf(r, key).buffers) == st.body[..st.pos]
  }

  lemma AdvanceKeepsInStep(s: Senders, r: Receiver, key: int, st: Stream, round: nat -> int)
    requires InStep(s, r, round) && st.pos < |st.body| <= MESSAGE_LIMIT && round(st.id) == key
    requires Collected(r, key, st.body, st.pos)
    ensures var next := Advance(s, key, st); InStep(next.0, ReceivedAll(r, next.1, round), round)
  {
    ChunkArrives(r, st.body, st.id, st.pos, round);
    var f := ChunkAt(st.body, st.id, st.pos);
    var t := Received(r, f, round);
    assert ReceivedAll(r, [f], round) == t by { assert [f][1..] == []; }
    var n := Advance(s, key, st).0;
    forall k | k in n.streams && k != key
      ensures PartOf(t, k) == PartOf(r, k)
    {
    }
    if f.last {
      assert n.streams.Keys == s.streams.Keys - {key};
      SubsetSize(n.streams.Keys, s.streams.Keys);
    } else {
      assert n.streams.Keys == r.parts.Keys + {key};
    }
  }

  lemma WholeKeepsInStep(s: Senders, r: Receiver, b: seq<byte>, round: nat -> int)
    requires InStep(s, r, round)
    ensures var next := Emit(s, Whole(b), round); InStep(next.0, ReceivedAll(r, next.1, round), round)
  {
    var f := Plain(b);
    assert ReceivedAll(r, [f], round) == Received(r, f, round) by { assert [f][1..] == []; }
  }

  lemma EmitKeepsInStep(s: Senders, r: Receiver, op: Op, round: nat -> int)
    requires InStep(s, r, round)
    ensures var next := Emit(s, op, round); InStep(next.0, ReceivedAll(r, next.1, round), round)
  {
    match op {
      case Whole(b) => WholeKeepsInStep(s, r, b, round);
      case Open(id, b) =>
        if MayOpen(s, id, b, round) {
          assert b[..0] == [] && |r.parts.Keys + {round(id)}| == |s.streams| + 1;
          AdvanceKeepsInStep(s, r, round(id), Stream(id, b, 0), round);
        }
      case Continue(key) =>
        if key in s.streams {
          assert r.parts.Keys + {key} == s.streams.Keys;
          AdvanceKeepsInStep(s, r, key, s.streams[key], round);
        }
    }
  }

  lemma {:induction false} InterleaveKeepsInStep(s: Senders, r: Receiver, ops: seq<Op>, round: nat -> int)
    requires InStep(s, r, round)
    ensures var end := Interleave(s, r, ops, round); InStep(end.0, end.1, round)
    decreases |ops|
  {
    if ops != [] {
      EmitKeepsInStep(s, r, ops[0], round);
      var next := Emit(s, ops[0], round);
      InterleaveKeepsInStep(next.0, ReceivedAll(r, next.1, round), ops[1..], round);
    }
  }

  /** However up to four long messages with different keys and any number of short ones are
      interleaved, the browser never fails, has delivered exactly the finished messages in
      the order they were finished, and keeps nothing of a finished one. */
  lemma InterleavedRoundTrip(ops: seq<Op>, round: nat -> int)
    ensures var end := Interleave(Senders(map[], []), IDLE, ops, round);
      && !end.1.closed
      && end.1.delivered == end.0.done
      && end.1.parts.Keys == end.0.streams.Keys
  {
    InterleaveKeepsInStep(Senders(map[], []), IDLE, ops, round);
  }

  /** What the senders have put on the wire. */
  function Emitted(s: Senders, ops: seq<Op>, round: nat -> int): seq<Frame>
    decreases |ops|
  {
    if ops == [] then [] else Emit(s, ops[0], round).1 + Emitted(Emit(s, ops[0], round).0, ops[1..], round)
  }

  function SendersAfter(s: Senders, ops: seq<Op>, round: nat -> int): Senders
    decreases |ops|
  {
    if ops == [] then s else SendersAfter(Emit(s, ops[0], round).0, ops[1..], round)
  }

  /** The rest of a stream. */
  lemma {:induction false} StreamGoesOn(s: Senders, key: int, round: nat -> int) returns (ops: seq<Op>)
    requires key in s.streams && s.streams[key].pos < |s.streams[key].body|
    ensures var st := s.streams[key];
      && Emitted(s, ops, round) == ChunksFrom(st.body, st.id, st.pos)
      && SendersAfter(s, ops, round) == Senders(s.streams - {key}, s.done + [st.body])
    decreases |s.streams[key].body| - s.streams[key].pos
  {
    var st := s.streams[key];
    var next := Emit(s, Continue(key), round);
    var f := ChunkAt(st.body, st.id, st.pos);
    assert ChunksFrom(st.body, st.id, st.pos) == [f] + ChunksFrom(st.body, st.id, st.pos + CHUNK);
    var rest: seq<Op> := [];
    if !f.last {
      rest := StreamGoesOn(next.0, key, round);
      assert next.0.streams - {key} == s.streams - {key};
    }
    ops := [Continue(key)] + rest;
    assert ops[1..] == rest;
  }

  /** Any message of up to 4 MiB can be sent to its end, a long one if it may be opened: on the wire are
      exactly its frames, and it is the last that was finished. */
  lemma MessageIsSent(s: Senders, b: seq<byte>, id: nat, round: nat -> int) returns (ops: seq<Op>)
    requires |b| <= 4 * 1024 * 1024 && (|b| > 40000 ==> round(id) !in s.streams && |s.streams| < 4)
    ensures Emitted(s, ops, round) == Frames(b, id)
    ensures SendersAfter(s, ops, round) == s.(done := s.done + [b])
  {
    if |b| > 40000 {
      ops := StreamIsSent(s, b, id, round);
    } else {
      ops := [Whole(b)];
      assert ops[1..] == [];
      assert Emit(s, Whole(b), round) == (s.(done := s.done + [b]), [Plain(b)]);
    }
  }

  lemma StreamIsSent(s: Senders, b: seq<byte>, id: nat, round: nat -> int) returns (ops: seq<Op>)
    requires round(id) !in s.streams && |s.streams| < 4 && 40000 < |b| <= 4 * 1024 * 1024
    ensures Emitted(s, ops, round) == Frames(b, id)
    ensures SendersAfter(s, ops, round) == s.(done := s.done + [b])
  {
    var key := round(id);
    var next := Emit(s, Open(id, b), round);
    var f := ChunkAt(b, id, 0);
    assert next == (s.(streams := s.streams[key := Stream(id, b, CHUNK)]), [f]);
    assert Frames(b, id) == [f] + ChunksFrom(b, id, CHUNK);
    var rest := StreamGoesOn(next.0, key, round);
    assert next.0.streams - {key} == s.streams;
    ops := [Open(id, b)] + rest;
    assert ops[1..] == rest;
  }

  /** Four is exact: the first chunk of a fifth unfinished message closes the link. */
  lemma FifthStreamFails(r: Receiver, b: seq<byte>, id: nat, round: nat -> int)
    requires !r.closed && |r.parts| == 4 && round(id) !in r.parts && |b| > 40000
    ensures ReceivedAll(r, Frames(b, id), round) == r.(parts := map[], closed := true)
  {
    ChunkDecodes(r, b, id, 0, round);
    assert |r.parts.Keys + {round(id)}| == STREAMS + 1;
    ClosedStaysClosed(Fail(r), Frames(b, id)[1..], round);
  }

  // ---- terminal output ----

  const TERMINAL_CHUNK := 16000

  /** The pieces are the first n bytes, each short enough to travel unchunked. */
  ghost predicate Written(pieces: seq<string>, b: seq<byte>, n: nat) {
    n <= |b| && Texts(pieces) == Some(b[..n]) && Short(pieces)
  }

  ghost predicate Short(pieces: seq<string>) {
    forall i :: 0 <= i < |pieces| ==> |pieces[i]| + 100 < PLAIN_LIMIT
  }

  lemma ShortOneMore(pieces: seq<string>, piece: string)
    requires Short(pieces) && |piece| + 100 < PLAIN_LIMIT
    ensures Short(pieces + [piece])
  {
  }

  lemma NextPiece(b: seq<byte>, pos: nat, end: nat, pieces: seq<string>)
    requires pos <= end <= |b| && end - pos <= TERMINAL_CHUNK && Written(pieces, b, pos)
    ensures Written(pieces + [Encode(b[pos..end])], b, end)
  {
    PieceFits(b[pos..end]);
    OnePieceMore(b, pos, end, pieces, Encode(b[pos..end]));
  }

  lemma PieceFits(part: seq<byte>)
    requires |part| <= TERMINAL_CHUNK
    ensures Decode(Encode(part)) == Some(part) && |Encode(part)| + 100 < PLAIN_LIMIT
  {
    RoundTrip(part);
    EncodedLength(part);
  }

  lemma OnePieceMore(b: seq<byte>, pos: nat, end: nat, pieces: seq<string>, piece: string)
    requires pos <= end <= |b| && Written(pieces, b, pos)
    requires Decode(piece) == Some(b[pos..end]) && |piece| + 100 < PLAIN_LIMIT
    ensures Written(pieces + [piece], b, end)
  {
    Prefix(b, pos, end);
    TextsOneMore(pieces, piece);
    ShortOneMore(pieces, piece);
  }

  lemma Prefix(b: seq<byte>, pos: nat, end: nat)
    requires pos <= end <= |b|
    ensures b[..pos] + b[pos..end] == b[..end]
  {
  }

  /** Terminal output goes out in pieces of 16000 bytes; after a failed send the count
      returned is exactly what was sent. `sends` is how many sends succeed. */
  method WriteTerminal(b: seq<byte>, sends: nat) returns (n: nat, ok: bool, pieces: seq<string>)
    ensures Written(pieces, b, n)
    ensures (ok <==> n == |b| && sends >= |pieces|) && |pieces| <= sends
    ensures ok <==> sends >= (|b| + 15999) / 16000
  {
    pieces := [];
    var pos := 0;
    assert b[..0] == [];
    while pos < |b|
      invariant 0 <= pos < |b| + TERMINAL_CHUNK && pos == |pieces| * TERMINAL_CHUNK && |pieces| <= sends
      invariant Written(pieces, b, Min(pos, |b|))
      decreases |b| - pos
    {
      var end := pos + TERMINAL_CHUNK;
      if end > |b| {
        end := |b|;
      }
      if |pieces| == sends {
        return pos, false, pieces;
      }
      NextPiece(b, pos, end, pieces);
      pieces := pieces + [Encode(b[pos..end])];
      pos := pos + TERMINAL_CHUNK;
    }
    n, ok := |b|, true;
  }

  /** What the browser writes to the terminal: the decoded pieces in order. */
  function Texts(pieces: seq<string>): Option<seq<byte>> {
    if pieces == [] then Some([]) else
      var before := Texts(pieces[..|pieces| - 1]);
      var piece := Decode(pieces[|pieces| - 1]);
      if before.Some? && piece.Some? then Some(before.value + piece.value) else None
  }

  lemma TextsOneMore(pieces: seq<string>, piece: string)
    requires Texts(pieces).Some? && Decode(piece).Some?
    ensures Texts(pieces + [piece]) == Some(Texts(pieces).value + Decode(piece).value)
  {
    assert (pieces + [piece])[..|pieces|] == pieces;
  }

  /** The browser's link object. */
  class Link {
    var parts: map<int, Part>
    var closed: bool
    var delivered: seq<seq<byte>>   // messages handed to the session

    function View(): Receiver reads this { Receiver(parts, closed, delivered) }

    constructor ()
      ensures View() == IDLE
    {
      parts, closed, delivered := map[], false, [];
    }

    method Join(buffers: seq<seq<byte>>, size: nat) returns (all: seq<byte>)
      ensures all == Concat(buffers)
    {
      all := [];
      var i := 0;
      assert buffers[..0] == [];
      while i < |buffers|
        invariant 0 <= i <= |buffers| && all == Concat(buffers[..i])
      {
        assert buffers[..i + 1][..i] == buffers[..i];
        all := all + buffers[i];
        i := i + 1;
      }
      assert buffers[..i] == buffers;
    }

    /** The link fails and forgets what it has collected. */
    method Close()
      modifies this`parts, this`closed
      ensures parts == map[] && closed
    {
      parts, closed := map[], true;
    }

    /** A decoded chunk. */
    method Gather(key: int, b: seq<byte>, last: bool)
      requires !closed
      modifies this
      ensures View() == Collect(old(View()), key, b, last)
    {
      var part := PartOf(View(), key);
      part := Part(part.buffers + [b], part.size + |b|);
      var keys := parts.Keys + {key};
      if part.size > MESSAGE_LIMIT || |keys| > STREAMS {
        Close();
      } else if last {
        Deliver(key, part);
      } else {
        parts := parts[key := part];
      }
    }

    /** The last piece has come in. */
    method Deliver(key: int, part: Part)
      modifies this`parts, this`delivered
      ensures parts == old(parts) - {key} && delivered == old(delivered) + [Concat(part.buffers)]
    {
      parts := parts - {key};
      var all := Join(part.buffers, part.size);
      delivered := delivered + [all];
    }

    method Receive(f: Frame, round: nat -> int)
      requires !closed
      modifies this
      ensures View() == Received(old(View()), f, round)
    {
      match f {
        case Plain(b) =>
          delivered := delivered + [b];
        case Chunk(id, data, last) =>
          var b := Decode(data);
          if b.None? {
            Close();
          } else {
            Gather(round(id), b.value, last);
          }
      }
    }
  }
}
