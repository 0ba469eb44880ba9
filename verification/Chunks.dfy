/**
  The RTMP chunk stream (Adobe RTMP 1.0, sections 5.3 and 5.4): how a message is cut into
  chunks, and how a reader puts chunks back together.
 */
module Chunks {
  import opened Bytes

  const MSG_SET_CHUNK_SIZE: byte := 1
  const MSG_ABORT: byte := 2

  const DEFAULT_CHUNK_SIZE := 128
  const MAX_CHUNK_SIZE := 0xFF_FFFF
  const MAX_CHUNK_STREAMS := 65600
  const EXTENDED_TS := 0xFF_FFFF

  /** A message as the reader returns it. */
  datatype Message = Message(mtype: byte, ts: nat, payload: bytes)

  /** A message as the writer sends it: on a chunk stream, for a message stream. */
  datatype OutMessage = OutMessage(cid: nat, sid: nat, msg: Message)

  function Min(a: nat, b: nat): nat {
    if a < b then a else b
  }

  // ---------------------------------------------------------------------------------
  // Writing
  // ---------------------------------------------------------------------------------

  /** The format-0 header, with the extended timestamp when 24 bits do not hold the time. */
  function MessageHeader(m: OutMessage): bytes
    requires m.cid < 64
  {
    var ts, len := m.msg.ts, |m.msg.payload|;
    [m.cid] + Be24(Min(ts, EXTENDED_TS)) + Be24(len) + [m.msg.mtype] + Le32(m.sid)
    + if ts >= EXTENDED_TS then Be32(ts) else []
  }

  /** The chunks that continue a message from byte `sent` on. */
  function Continuation(m: OutMessage, sent: nat, size: nat): bytes
    requires m.cid < 64 && sent <= |m.msg.payload| && size > 0
    decreases |m.msg.payload| - sent
  {
    var len := |m.msg.payload|;
    if sent == len then []
    else
      var n := Min(len - sent, size);
      [0xC0 + m.cid] + m.msg.payload[sent..sent + n] + Continuation(m, sent + n, size)
  }

  function Frame(m: OutMessage, size: nat): bytes
    requires m.cid < 64 && size > 0
  {
    var n := Min(|m.msg.payload|, size);
    MessageHeader(m) + m.msg.payload[..n] + Continuation(m, n, size)
  }

  /** Frames one message into chunk bytes. */
  method FrameMessage(m: OutMessage, size: nat) returns (out: bytes)
    requires m.cid < 64 && size > 0
    ensures out == Frame(m, size)
  {
    var payload := m.msg.payload;
    out := MessageHeader(m);
    if |payload| <= size {
      out := out + payload;
      assert payload[..|payload|] == payload;
    } else {
      out := out + payload[..size];
      var sent := size;
      while sent < |payload|
        invariant sent <= |payload|
        invariant out + Continuation(m, sent, size) == Frame(m, size)
        decreases |payload| - sent
      {
        ContinuationStep(m, sent, size, out);
        var n := Min(|payload| - sent, size);
        out := out + [0xC0 + m.cid];
        out := out + payload[sent..sent + n];
        sent := sent + n;
      }
    }
  }

  lemma ContinuationStep(m: OutMessage, sent: nat, size: nat, out: bytes)
    requires m.cid < 64 && sent < |m.msg.payload| && size > 0
    ensures var n := Min(|m.msg.payload| - sent, size);
            out + Continuation(m, sent, size) ==
            out + [0xC0 + m.cid] + m.msg.payload[sent..sent + n] + Continuation(m, sent + n, size)
  {
    var n := Min(|m.msg.payload| - sent, size);
    var a, b, c := [0xC0 + m.cid], m.msg.payload[sent..sent + n], Continuation(m, sent + n, size);
    assert out + (a + b + c) == out + a + b + c;
  }

  // ---------------------------------------------------------------------------------
  // Reading
  // ---------------------------------------------------------------------------------

  datatype ChunkState = ChunkState(ts: nat, length: nat, mtype: byte, sid: nat, payload: bytes)

  const NO_STATE := ChunkState(0, 0, 0, 0, [])

  /** The basic header: format, chunk stream id and its own length. */
  datatype Basic = Basic(fmt: nat, cid: nat, len: nat)

  /** The longest form reaches id 65599, so the source's range check on ids never fires. */
  function ReadBasic(d: bytes): (r: Option<Basic>)
    ensures r.Some? ==> r.value.fmt < 4 && 2 <= r.value.cid < MAX_CHUNK_STREAMS && 1 <= r.value.len <= |d|
  {
    if |d| < 1 then None
    else
      var fmt, low := d[0] / 64, d[0] % 64;
      if low == 0 then
        if |d| < 2 then None else Some(Basic(fmt, 64 + d[1] as int, 2))
      else if low == 1 then
        if |d| < 3 then None else Some(Basic(fmt, 64 + d[1] as int + d[2] as int * 256, 3))
      else Some(Basic(fmt, low, 1))
  }

  /** The length of the message header that each format carries. */
  function HeaderLen(fmt: nat): nat {
    if fmt == 0 then 11 else if fmt == 1 then 7 else if fmt == 2 then 3 else 0
  }

  /** Whether the 24-bit time field says that four more bytes carry the time. */
  function ExtendedLen(fmt: nat, h: bytes): nat
    requires |h| == HeaderLen(fmt)
  {
    if fmt < 3 && Rd24(h[..3]) == EXTENDED_TS then 4 else 0
  }

  /** What a message header changes in its stream's state; `time` is the field after extension. */
  function ApplyHeader(st: ChunkState, fmt: nat, h: bytes, time: nat): ChunkState
    requires |h| == HeaderLen(fmt)
  {
    if fmt == 0 then ChunkState(time, Rd24(h[3..6]), h[6], RdLe32(h[7..11]), [])
    else if fmt == 1 then ChunkState((st.ts + time) % TWO_32, Rd24(h[3..6]), h[6], st.sid, [])
    else if fmt == 2 then st.(ts := (st.ts + time) % TWO_32, payload := [])
    else st
  }

  type Streams = map<nat, ChunkState>

  function StateOf(states: Streams, cid: nat): ChunkState {
    if cid in states then states[cid] else NO_STATE
  }

  /** One chunk: not enough bytes, or the new states, the bytes used and the message it completed. */
  datatype ChunkRead = Short | Chunk(states: Streams, used: nat, msg: Option<Message>)

  /** Takes payload bytes into the state that the chunk's header left. */
  function TakePayload(states: Streams, size: nat, d: bytes, cid: nat, st: ChunkState, at: nat): ChunkRead
    requires at <= |d|
  {
    var have := |st.payload|;
    if have >= st.length then Chunk(states[cid := st], at, None)
    else
      var n := Min(st.length - have, size);
      if |d| < at + n then Short
      else
        var payload := st.payload + d[at..at + n];
        if |payload| == st.length then
          Chunk(states[cid := st.(payload := [])], at + n, Some(Message(st.mtype, st.ts, payload)))
        else
          Chunk(states[cid := st.(payload := payload)], at + n, None)
  }

  /** The state after the header of a chunk and where its payload begins. */
  function ReadHeader(st: ChunkState, d: bytes, fmt: nat, at: nat): Option<(ChunkState, nat)>
    requires at <= |d|
  {
    var n := HeaderLen(fmt);
    if |d| < at + n then None
    else
      var h := d[at..at + n];
      var e := ExtendedLen(fmt, h);
      if |d| < at + n + e then None
      else
        var time := if e == 4 then Rd32(d[at + n..at + n + 4]) else if fmt < 3 then Rd24(h[..3]) else 0;
        Some((ApplyHeader(st, fmt, h, time), at + n + e))
  }

  function ReadChunk(states: Streams, size: nat, d: bytes): (r: ChunkRead)
    ensures r.Chunk? ==> 1 <= r.used <= |d|
  {
    var basic := ReadBasic(d);
    if basic.None? then Short
    else
      var Basic(fmt, cid, len) := basic.value;
      var header := ReadHeader(StateOf(states, cid), d, fmt, len);
      if header.None? then Short
      else TakePayload(states, size, d, cid, header.value.0, header.value.1)
  }

  /** A message, the states after it and the bytes it took, or not enough bytes for one. */
  datatype MessageRead = Starved | Got(states: Streams, used: nat, msg: Message)

  /** Reads chunks until one completes a message. */
  function ReadMessage(states: Streams, size: nat, d: bytes): (r: MessageRead)
    ensures r.Got? ==> 1 <= r.used <= |d|
    decreases |d|
  {
    match ReadChunk(states, size, d)
    case Short => Starved
    case Chunk(next, used, Some(msg)) => Got(next, used, msg)
    case Chunk(next, used, None) =>
      match ReadMessage(next, size, d[used..])
      case Starved => Starved
      case Got(after, more, msg) => Got(after, used + more, msg)
  }

  /** The reader's side of the connection: reassembly states and the peer's chunk size. */
  datatype Reader = Reader(states: Streams, size: nat)

  const NEW_READER := Reader(map[], DEFAULT_CHUNK_SIZE)

  /** Reacts to the control messages that concern the reader; None is the refusal of size zero. */
  function HandleControl(r: Reader, m: Message): Option<Reader> {
    if m.mtype == MSG_SET_CHUNK_SIZE && |m.payload| >= 4 then
      var n := Rd32(m.payload[..4]);
      if n == 0 then None else Some(r.(size := Min(n, MAX_CHUNK_SIZE)))
    else if m.mtype == MSG_ABORT && |m.payload| >= 4 then
      Some(r.(states := r.states - {Rd32(m.payload[..4])}))
    else Some(r)
  }

  datatype Pumped = Pumped(msgs: seq<Message>, used: nat)

  /** Reads and handles messages for as long as the bytes last. */
  function Pump(r: Reader, d: bytes): Pumped
    decreases |d|
  {
    match ReadMessage(r.states, r.size, d)
    case Starved => Pumped([], 0)
    case Got(states, used, msg) =>
      match HandleControl(r.(states := states), msg)
      case None => Pumped([msg], used)
      case Some(next) =>
        var rest := Pump(next, d[used..]);
        Pumped([msg] + rest.msgs, used + rest.used)
  }

  // ---------------------------------------------------------------------------------
  // The sender of an interleaving
  // ---------------------------------------------------------------------------------

  /**
    A sender has messages under way, each with the number of its payload bytes already sent, and knows
    the message it sent last on each stream.
   */
  datatype Sender = Sender(flight: map<nat, (OutMessage, nat)>, last: map<nat, OutMessage>, size: nat)

  /** One chunk: the first of a message, in one of the four formats, or the next of the one under way on a stream. */
  datatype Action = Begin(m: OutMessage, fmt: nat) | Continue(cid: nat)

  /** The messages a sender may chunk: a stream id in range, and a payload. */
  predicate Chunkable(m: OutMessage) {
    && 2 <= m.cid < MAX_CHUNK_STREAMS && m.sid < TWO_32 && m.msg.ts < TWO_32
    && 0 < |m.msg.payload| < TWO_24
    && (IsSetChunkSize(m.msg) ==> NewSize(m.msg) > 0)
  }

  /** The ones that this library sends have a short stream id and are no aborts. */
  predicate Sendable(m: OutMessage) {
    Chunkable(m) && m.cid <= 63 && m.msg.mtype != MSG_ABORT
  }

  predicate IsSetChunkSize(m: Message) {
    m.mtype == MSG_SET_CHUNK_SIZE && |m.payload| >= 4
  }

  function NewSize(m: Message): nat
    requires IsSetChunkSize(m)
  {
    Rd32(m.payload[..4])
  }

  /** The stream whose unfinished message an abort calls off. */
  function CalledOff(m: Message): set<nat> {
    if m.mtype == MSG_ABORT && |m.payload| >= 4 then {Rd32(m.payload[..4])} else {}
  }

  /** The chunk size in force once a message is out. */
  function SizeAfter(size: nat, m: Message): nat {
    if IsSetChunkSize(m) then NewSize(m) else size
  }

  /** Format and stream id, in the shortest of the three forms that holds the id. */
  function BasicHeader(fmt: nat, cid: nat): (r: bytes)
    requires fmt < 4 && 2 <= cid < MAX_CHUNK_STREAMS
    ensures 1 <= |r| <= 3
  {
    if cid < 64 then [fmt * 64 + cid]
    else if cid < 320 then [fmt * 64, cid - 64]
    else [fmt * 64 + 1, (cid - 64) % 256, (cid - 64) / 256]
  }

  /** The time a format carries: absolute, or what was added since the message before, modulo 2^32. */
  function TimeFor(prev: OutMessage, m: OutMessage, fmt: nat): nat {
    if fmt == 0 then m.msg.ts else (m.msg.ts - prev.msg.ts) % TWO_32
  }

  /** A message header: 24 bits of time, what differs from the message before, and the time in full when it is long. */
  function StartHeader(prev: OutMessage, m: OutMessage, fmt: nat): bytes
    requires fmt < 4 && 2 <= m.cid < MAX_CHUNK_STREAMS
  {
    var t := TimeFor(prev, m, fmt);
    BasicHeader(fmt, m.cid)
    + (if fmt < 3 then Be24(Min(t, EXTENDED_TS)) else [])
    + (if fmt < 2 then Be24(|m.msg.payload|) + [m.msg.mtype] else [])
    + (if fmt == 0 then Le32(m.sid) else [])
    + (if fmt < 3 && t >= EXTENDED_TS then Be32(t) else [])
  }

  /** What the message before must share with one whose header leaves it out. */
  predicate Implied(prev: OutMessage, m: OutMessage, fmt: nat) {
    && (fmt >= 1 ==> prev.sid == m.sid)
    && (fmt >= 2 ==> prev.msg.mtype == m.msg.mtype && |prev.msg.payload| == |m.msg.payload|)
    && (fmt >= 3 ==> prev.msg.ts == m.msg.ts)
  }

  /** The message sent before on the stream, if there was one. */
  function Previous(s: Sender, m: OutMessage): OutMessage {
    if m.cid in s.last then s.last[m.cid] else m
  }

  predicate Allowed(s: Sender, a: Action) {
    && s.size > 0
    && match a
       case Begin(m, fmt) =>
         && Chunkable(m) && m.cid !in s.flight && fmt < 4
         && (fmt >= 1 ==> m.cid in s.last && Implied(s.last[m.cid], m, fmt))
       case Continue(cid) =>
         && cid in s.flight
         && Chunkable(s.flight[cid].0) && s.flight[cid].0.cid == cid
         && 0 < s.flight[cid].1 < |s.flight[cid].0.msg.payload|
  }

  /** The message that a chunk belongs to and where in its payload the chunk begins. */
  function Subject(s: Sender, a: Action): (OutMessage, nat)
    requires Allowed(s, a)
  {
    match a
    case Begin(m, _) => (m, 0)
    case Continue(cid) => s.flight[cid]
  }

  function ChunkBytes(s: Sender, a: Action): bytes
    requires Allowed(s, a)
  {
    var (m, sent) := Subject(s, a);
    var n := Min(|m.msg.payload| - sent, s.size);
    (if a.Begin? then StartHeader(Previous(s, m), m, a.fmt) else BasicHeader(3, m.cid)) + m.msg.payload[sent..sent + n]
  }

  /** The sender after the chunk; a completed Set Chunk Size or Abort takes effect at once. */
  function SendStep(s: Sender, a: Action): Sender
    requires Allowed(s, a)
  {
    var (m, sent) := Subject(s, a);
    var upto := sent + Min(|m.msg.payload| - sent, s.size);
    var last := s.last[m.cid := m];
    if upto < |m.msg.payload| then Sender(s.flight[m.cid := (m, upto)], last, s.size)
    else Sender(s.flight - {m.cid} - CalledOff(m.msg), last - CalledOff(m.msg), SizeAfter(s.size, m.msg))
  }

  function Completed(s: Sender, a: Action): seq<Message>
    requires Allowed(s, a)
  {
    var (m, sent) := Subject(s, a);
    if sent + s.size < |m.msg.payload| then [] else [m.msg]
  }

  ghost predicate AllAllowed(s: Sender, run: seq<Action>)
    decreases |run|
  {
    run != [] ==> Allowed(s, run[0]) && AllAllowed(SendStep(s, run[0]), run[1..])
  }

  function Wire(s: Sender, run: seq<Action>): bytes
    requires AllAllowed(s, run)
    decreases |run|
  {
    if run == [] then [] else ChunkBytes(s, run[0]) + Wire(SendStep(s, run[0]), run[1..])
  }

  /** The messages in the order of their last chunks. */
  function Delivered(s: Sender, run: seq<Action>): seq<Message>
    requires AllAllowed(s, run)
    decreases |run|
  {
    if run == [] then [] else Completed(s, run[0]) + Delivered(SendStep(s, run[0]), run[1..])
  }

  function Final(s: Sender, run: seq<Action>): Sender
    requires AllAllowed(s, run)
    decreases |run|
  {
    if run == [] then s else Final(SendStep(s, run[0]), run[1..])
  }

  // ---------------------------------------------------------------------------------
  // The reader follows the sender
  // ---------------------------------------------------------------------------------

  /** What a reader keeps of a message's header, with the payload bytes it holds. */
  function Held(m: OutMessage, payload: bytes): ChunkState {
    ChunkState(m.msg.ts, |m.msg.payload|, m.msg.mtype, m.sid, payload)
  }

  /**
    The reader holds just what was sent of each message under way, the header of the last message on the
    other streams, and the same chunk size.
   */
  ghost predicate InStep(s: Sender, r: Reader) {
    && s.size > 0 && r.size == Min(s.size, MAX_CHUNK_SIZE)
    && (forall cid :: cid in s.flight ==> Follows(r.states, cid, s.flight[cid].0, s.flight[cid].1))
    && (forall cid :: cid in s.last && cid !in s.flight ==> Follows(r.states, cid, s.last[cid], 0))
  }

  predicate Follows(states: Streams, cid: nat, m: OutMessage, sent: nat) {
    && cid in states && m.cid == cid && sent <= |m.msg.payload|
    && states[cid] == Held(m, m.msg.payload[..sent])
  }

  /** The states once a chunk of a message has been read up to byte `upto`. */
  function StatesAt(states: Streams, m: OutMessage, upto: nat): Streams
    requires upto <= |m.msg.payload|
  {
    states[m.cid := Held(m, if upto == |m.msg.payload| then [] else m.msg.payload[..upto])]
  }

  lemma ReadBasicBack(fmt: nat, cid: nat, tail: bytes)
    requires fmt < 4 && 2 <= cid < MAX_CHUNK_STREAMS
    ensures ReadBasic(BasicHeader(fmt, cid) + tail) == Some(Basic(fmt, cid, |BasicHeader(fmt, cid)|))
  {
  }

  /** The fields behind the time: what a header of the format says of length, type and message stream. */
  function Fields(m: OutMessage, fmt: nat): bytes {
    (if fmt < 2 then Be24(|m.msg.payload|) + [m.msg.mtype] else []) + (if fmt == 0 then Le32(m.sid) else [])
  }

  function TimeField(t: nat, fmt: nat): bytes {
    if fmt < 3 then Be24(Min(t, EXTENDED_TS)) else []
  }

  function Extension(t: nat, fmt: nat): bytes {
    if fmt < 3 && t >= EXTENDED_TS then Be32(t) else []
  }

  lemma StartHeaderParts(prev: OutMessage, m: OutMessage, fmt: nat)
    requires fmt < 4 && 2 <= m.cid < MAX_CHUNK_STREAMS
    ensures var t := TimeFor(prev, m, fmt);
      StartHeader(prev, m, fmt) == BasicHeader(fmt, m.cid) + (TimeField(t, fmt) + Fields(m, fmt)) + Extension(t, fmt)
  {
    hide BasicHeader, TimeFor, Be24, Be32, Le32;
  }

  /** Adding what was subtracted gives the absolute time back. */
  lemma TimeBack(before: nat, ts: nat)
    requires ts < TWO_32
    ensures (before + (ts - before) % TWO_32) % TWO_32 == ts
  {
    var delta := (ts - before) % TWO_32;
    assert ts - before == (ts - before) / TWO_32 * TWO_32 + delta;
    assert before + delta == ts + -((ts - before) / TWO_32) * TWO_32;
    Modular(ts, -((ts - before) / TWO_32));
  }

  lemma Modular(ts: nat, k: int)
    requires ts < TWO_32
    ensures (ts + k * TWO_32) % TWO_32 == ts
  {
  }

  /** A header of each format, read into a stream that holds the header of the message before. */
  lemma ReadFields(st: ChunkState, prev: OutMessage, m: OutMessage, fmt: nat, d: bytes, at: nat, tail: bytes)
    requires Chunkable(m) && fmt < 4 && (fmt >= 1 ==> Implied(prev, m, fmt) && st == Held(prev, []))
    requires at <= |d|
    requires var t := TimeFor(prev, m, fmt);
      d[at..] == TimeField(t, fmt) + Fields(m, fmt) + Extension(t, fmt) + tail
    ensures var t := TimeFor(prev, m, fmt);
      ReadHeader(st, d, fmt, at) == Some((Held(m, []), at + |TimeField(t, fmt) + Fields(m, fmt) + Extension(t, fmt)|))
  {
    hide Be24, Be32, Le32, Rd24, Rd32, RdLe32;
    var t := TimeFor(prev, m, fmt);
    var h, ext := TimeField(t, fmt) + Fields(m, fmt), Extension(t, fmt);
    var n := HeaderLen(fmt);
    assert |h| == n;
    assert h + ext + tail == h + (ext + tail);
    Cut(d, at, h, ext + tail);
    Cut(d, at + n, ext, tail);
    FieldsBack(m, t, fmt);
    Rd24Be24(Min(t, EXTENDED_TS));
    TimeBack(prev.msg.ts, m.msg.ts);
    if fmt < 3 && t >= EXTENDED_TS {
      Rd32Be32(t);
    }
  }

  lemma FieldsBack(m: OutMessage, t: nat, fmt: nat)
    requires Chunkable(m)
    ensures var h := TimeField(t, fmt) + Fields(m, fmt);
      && (fmt < 3 ==> |h| >= 3 && h[..3] == Be24(Min(t, EXTENDED_TS)))
      && (fmt < 2 ==> |h| >= 7 && Rd24(h[3..6]) == |m.msg.payload| && h[6] == m.msg.mtype)
      && (fmt == 0 ==> |h| == 11 && RdLe32(h[7..11]) == m.sid)
  {
    hide Be24, Le32, Rd24, RdLe32;
    var h := TimeField(t, fmt) + Fields(m, fmt);
    Rd24Be24(|m.msg.payload|);
    Rd32Be32(m.sid);
    if fmt < 2 {
      assert h[3..6] == Be24(|m.msg.payload|);
    }
    if fmt == 0 {
      assert h[7..11] == Le32(m.sid);
    }
  }

  lemma ReadFirstChunk(r: Reader, prev: OutMessage, m: OutMessage, fmt: nat, size: nat, more: bytes)
    requires Chunkable(m) && fmt < 4 && size > 0 && r.size == Min(size, MAX_CHUNK_SIZE)
    requires fmt >= 1 ==> Implied(prev, m, fmt) && Follows(r.states, m.cid, prev, 0)
    ensures var n := Min(|m.msg.payload|, size);
            var b := StartHeader(prev, m, fmt) + m.msg.payload[0..n];
            ReadChunk(r.states, r.size, b + more) ==
            Chunk(StatesAt(r.states, m, n), |b|, if n == |m.msg.payload| then Some(m.msg) else None)
  {
    hide BasicHeader, ReadBasic, ReadHeader, StartHeader, TimeFor, TimeField, Fields, Extension;
    var n, t := Min(|m.msg.payload|, size), TimeFor(prev, m, fmt);
    var basic, h, ext := BasicHeader(fmt, m.cid), TimeField(t, fmt) + Fields(m, fmt), Extension(t, fmt);
    var tail := m.msg.payload[0..n] + more;
    var d := StartHeader(prev, m, fmt) + m.msg.payload[0..n] + more;
    StartHeaderParts(prev, m, fmt);
    assert d == basic + (h + ext + tail);
    ReadBasicBack(fmt, m.cid, h + ext + tail);
    assert d[|basic|..] == h + ext + tail;
    ReadFields(StateOf(r.states, m.cid), prev, m, fmt, d, |basic|, tail);
    var at := |basic| + |h + ext|;
    assert at == |StartHeader(prev, m, fmt)|;
    assert d[at..at + n] == m.msg.payload[..n];
    assert [] + d[at..at + n] == m.msg.payload[..n];
    assert n == |m.msg.payload| ==> m.msg.payload[..n] == m.msg.payload;
  }

  lemma ReadNextChunk(r: Reader, m: OutMessage, sent: nat, size: nat, more: bytes)
    requires Chunkable(m) && size > 0 && r.size == Min(size, MAX_CHUNK_SIZE)
    requires sent < |m.msg.payload| && Follows(r.states, m.cid, m, sent)
    ensures var n := Min(|m.msg.payload| - sent, size);
            var b := BasicHeader(3, m.cid) + m.msg.payload[sent..sent + n];
            ReadChunk(r.states, r.size, b + more) ==
            Chunk(StatesAt(r.states, m, sent + n), |b|, if sent + n == |m.msg.payload| then Some(m.msg) else None)
  {
    hide BasicHeader, ReadBasic;
    var n, basic := Min(|m.msg.payload| - sent, size), BasicHeader(3, m.cid);
    var part := m.msg.payload[sent..sent + n];
    var d := basic + part + more;
    assert d == basic + (part + more);
    ReadBasicBack(3, m.cid, part + more);
    assert d[|basic|..|basic|] == [];
    assert d[|basic|..|basic| + n] == part;
    assert m.msg.payload[..sent] + part == m.msg.payload[..sent + n];
    assert sent + n == |m.msg.payload| ==> m.msg.payload[..sent + n] == m.msg.payload;
  }

  /** One chunk of any action is read for what it is. */
  lemma ReadAction(s: Sender, r: Reader, a: Action, more: bytes)
    requires InStep(s, r) && Allowed(s, a)
    ensures var (m, sent) := Subject(s, a);
            var upto := sent + Min(|m.msg.payload| - sent, s.size);
            ReadChunk(r.states, r.size, ChunkBytes(s, a) + more) ==
            Chunk(StatesAt(r.states, m, upto), |ChunkBytes(s, a)|,
                if upto == |m.msg.payload| then Some(m.msg) else None)
  {
    hide ReadChunk, StartHeader, BasicHeader;
    match a
    case Begin(m, fmt) => ReadFirstChunk(r, Previous(s, m), m, fmt, s.size, more);
    case Continue(cid) => ReadNextChunk(r, s.flight[cid].0, s.flight[cid].1, s.size, more);
  }

  /** The reader after the chunk of an action, its control message handled. */
  function ReaderAfter(s: Sender, r: Reader, a: Action): Reader
    requires Allowed(s, a)
  {
    var (m, sent) := Subject(s, a);
    var upto := sent + Min(|m.msg.payload| - sent, s.size);
    var states := StatesAt(r.states, m, upto);
    if upto < |m.msg.payload| then Reader(states, r.size)
    else Reader(states - CalledOff(m.msg), Min(SizeAfter(s.size, m.msg), MAX_CHUNK_SIZE))
  }

  lemma StaysInStep(s: Sender, r: Reader, a: Action)
    requires InStep(s, r) && Allowed(s, a)
    ensures InStep(SendStep(s, a), ReaderAfter(s, r, a))
  {
    hide Held;
    var s', r' := SendStep(s, a), ReaderAfter(s, r, a);
    var m := Subject(s, a).0;
    forall cid | cid in s'.flight ensures Follows(r'.states, cid, s'.flight[cid].0, s'.flight[cid].1) {
      if cid != m.cid {
        assert Follows(r.states, cid, s.flight[cid].0, s.flight[cid].1);
      }
    }
    forall cid | cid in s'.last && cid !in s'.flight ensures Follows(r'.states, cid, s'.last[cid], 0) {
      if cid != m.cid {
        assert Follows(r.states, cid, s.last[cid], 0);
      } else {
        assert m.msg.payload[..0] == [];
      }
    }
  }

  lemma ControlInStep(s: Sender, r: Reader, a: Action)
    requires InStep(s, r) && Allowed(s, a) && Completed(s, a) != []
    ensures var m := Subject(s, a).0;
            HandleControl(r.(states := StatesAt(r.states, m, |m.msg.payload|)), m.msg) == Some(ReaderAfter(s, r, a))
  {
    hide StatesAt;
    var m := Subject(s, a).0;
    var states := StatesAt(r.states, m, |m.msg.payload|);
    assert CalledOff(m.msg) == {} ==> states - CalledOff(m.msg) == states;
  }

  lemma WireNotEmpty(s: Sender, run: seq<Action>)
    requires AllAllowed(s, run) && Wire(s, run) == []
    ensures run == []
  {
  }

  lemma PumpPartial(s: Sender, r: Reader, a: Action, more: bytes)
    requires InStep(s, r) && Allowed(s, a) && Completed(s, a) == []
    ensures var rest := Pump(ReaderAfter(s, r, a), more);
            Pump(r, ChunkBytes(s, a) + more) ==
            if rest.msgs == [] then Pumped([], 0) else rest.(used := |ChunkBytes(s, a)| + rest.used)
  {
    hide ReadChunk, ChunkBytes, HandleControl, StatesAt;
    ReadAction(s, r, a, more);
    var b, r' := ChunkBytes(s, a), ReaderAfter(s, r, a);
    var d := b + more;
    assert d[|b|..] == more;
    match ReadMessage(r'.states, r'.size, more)
    case Starved =>
    case Got(after, used, msg) =>
      assert d[|b| + used..] == more[used..];
  }

  lemma PumpComplete(s: Sender, r: Reader, a: Action, more: bytes)
    requires InStep(s, r) && Allowed(s, a) && Completed(s, a) != []
    ensures var rest := Pump(ReaderAfter(s, r, a), more);
            Pump(r, ChunkBytes(s, a) + more) ==
            Pumped(Completed(s, a) + rest.msgs, |ChunkBytes(s, a)| + rest.used)
  {
    hide ReadChunk, ChunkBytes, HandleControl, StatesAt;
    ReadAction(s, r, a, more);
    ControlInStep(s, r, a);
    assert (ChunkBytes(s, a) + more)[|ChunkBytes(s, a)|..] == more;
  }

  /**
    Demultiplexing: whatever messages are interleaved chunk by chunk on different chunk streams, each
    begun in any format that its predecessor on the stream allows, with any stream id, and whatever
    chunk sizes are announced and messages called off between them, the reader returns exactly the
    messages that were not called off, with their absolute times, in the order of their last chunks,
    and uses up all bytes once none is under way.
   */
  lemma {:induction false} Demultiplex(s: Sender, r: Reader, run: seq<Action>)
    requires InStep(s, r) && AllAllowed(s, run)
    ensures Pump(r, Wire(s, run)).msgs == Delivered(s, run)
    ensures Final(s, run).flight == map[] ==> Pump(r, Wire(s, run)).used == |Wire(s, run)|
    decreases |run|
  {
    hide ReadMessage, ChunkBytes, ReaderAfter, InStep, Pump;
    if run == [] {
      NothingToPump(r);
    } else {
      var a := run[0];
      var s', r', more := SendStep(s, a), ReaderAfter(s, r, a), Wire(SendStep(s, a), run[1..]);
      StaysInStep(s, r, a);
      Demultiplex(s', r', run[1..]);
      if Completed(s, a) == [] {
        assert Subject(s, a).0.cid in s'.flight;
        PumpPartial(s, r, a, more);
        if Pump(r', more).msgs == [] && Final(s, run).flight == map[] {
          NoMessagesNoBytes(r', more);
          WireNotEmpty(s', run[1..]);
        }
      } else {
        PumpComplete(s, r, a, more);
      }
    }
  }

  lemma NothingToPump(r: Reader)
    ensures Pump(r, []) == Pumped([], 0)
  {
  }

  lemma NoMessagesNoBytes(r: Reader, d: bytes)
    ensures Pump(r, d).msgs == [] ==> Pump(r, d).used == 0
  {
  }

  /** A fresh connection: nothing under way, both sides at the default chunk size. */
  lemma DemultiplexFresh(run: seq<Action>)
    requires AllAllowed(Sender(map[], map[], DEFAULT_CHUNK_SIZE), run)
    requires Final(Sender(map[], map[], DEFAULT_CHUNK_SIZE), run).flight == map[]
    ensures var sender := Sender(map[], map[], DEFAULT_CHUNK_SIZE);
            Pump(NEW_READER, Wire(sender, run)) == Pumped(Delivered(sender, run), |Wire(sender, run)|)
  {
    Demultiplex(Sender(map[], map[], DEFAULT_CHUNK_SIZE), NEW_READER, run);
  }

  // ---------------------------------------------------------------------------------
  // Messages without any header
  // ---------------------------------------------------------------------------------

  /** The rest of a message in chunks of format 3 alone. */
  function Bare(m: OutMessage, sent: nat, size: nat): bytes
    requires 2 <= m.cid < MAX_CHUNK_STREAMS && sent <= |m.msg.payload| && size > 0
    decreases |m.msg.payload| - sent
  {
    if sent == |m.msg.payload| then []
    else
      var n := Min(|m.msg.payload| - sent, size);
      BasicHeader(3, m.cid) + m.msg.payload[sent..sent + n] + Bare(m, sent + n, size)
  }

  predicate SameHeader(st: ChunkState, m: OutMessage) {
    st.ts == m.msg.ts && st.mtype == m.msg.mtype && st.length == |m.msg.payload|
  }

  /** A chunk of format 3 goes on from the state of its stream. */
  lemma BareChunk(states: Streams, size: nat, cid: nat, tail: bytes)
    requires 2 <= cid < MAX_CHUNK_STREAMS && cid in states
    ensures var basic := BasicHeader(3, cid);
      ReadChunk(states, size, basic + tail) == TakePayload(states, size, basic + tail, cid, states[cid], |basic|)
  {
    hide BasicHeader, ReadBasic, TakePayload;
    ReadBasicBack(3, cid, tail);
    var basic := BasicHeader(3, cid);
    assert (basic + tail)[|basic|..|basic|] == [];
  }

  lemma SliceInside(a: bytes, b: bytes, c: bytes, n: nat)
    requires n <= |b|
    ensures var d := a + b + c;
      d == a + d[|a|..] && d[|a|..|a| + n] == b[..n] && d[|a| + |b|..] == c
  {
    var d := a + b + c;
    assert d == a + (b + c) && d[|a|..] == b + c;
    assert d[|a|..|a| + n] == (b + c)[..n];
  }

  lemma BareStep(m: OutMessage, sent: nat, size: nat)
    requires 2 <= m.cid < MAX_CHUNK_STREAMS && size > 0 && sent < |m.msg.payload|
    ensures var n := Min(|m.msg.payload| - sent, size);
      && Bare(m, sent, size) == BasicHeader(3, m.cid) + m.msg.payload[sent..sent + n] + Bare(m, sent + n, size)
      && (sent + n == |m.msg.payload| ==> Bare(m, sent + n, size) == [])
  {
    hide BasicHeader;
  }

  /** The bytes of the message that such a chunk takes, more or fewer than were sent in it. */
  lemma BareTaken(m: OutMessage, sent: nat, size: nat, wants: nat)
    requires Chunkable(m) && size > 0 && sent < |m.msg.payload|
    requires wants <= Min(|m.msg.payload| - sent, size)
    ensures var n, basic, d := Min(|m.msg.payload| - sent, size), BasicHeader(3, m.cid), Bare(m, sent, size);
      && |d| >= |basic| + n && d == basic + d[|basic|..] && d[|basic| + n..] == Bare(m, sent + n, size)
      && m.msg.payload[..sent] + d[|basic|..|basic| + wants] == m.msg.payload[..sent + wants]
      && (sent + n == |m.msg.payload| ==> |d| == |basic| + n)
  {
    hide BasicHeader, Bare;
    BareStep(m, sent, size);
    var n, basic := Min(|m.msg.payload| - sent, size), BasicHeader(3, m.cid);
    var part := m.msg.payload[sent..sent + n];
    SliceInside(basic, part, Bare(m, sent + n, size), wants);
    Prefixes(m.msg.payload, sent, n, wants);
  }

  lemma Prefixes(p: bytes, sent: nat, n: nat, wants: nat)
    requires sent + n <= |p| && wants <= n
    ensures p[..sent] + p[sent..sent + n][..wants] == p[..sent + wants]
  {
  }

  lemma {:induction false} BareReads(states: Streams, size: nat, m: OutMessage, sent: nat)
    requires Chunkable(m) && size > 0 && sent < |m.msg.payload| && m.cid in states
    requires var st := states[m.cid]; st.payload == m.msg.payload[..sent] && sent < st.length
    ensures var got := ReadMessage(states, size, Bare(m, sent, size));
      got.Got? && got.msg == m.msg <==> SameHeader(states[m.cid], m)
    decreases |m.msg.payload| - sent
  {
    hide ReadChunk, Bare, BasicHeader;
    var st, n, d, basic := states[m.cid], Min(|m.msg.payload| - sent, size), Bare(m, sent, size), BasicHeader(3, m.cid);
    var wants := Min(st.length - sent, size);
    BareTaken(m, sent, size, if wants <= n then wants else n);
    BareChunk(states, size, m.cid, d[|basic|..]);
    if wants <= n && sent + wants < st.length {
      var next := states[m.cid := st.(payload := m.msg.payload[..sent + n])];
      if sent + n < |m.msg.payload| {
        BareReads(next, size, m, sent + n);
      } else {
        BareEnd(next, size, m);
      }
    } else if wants <= n {
      assert sent + wants == |m.msg.payload| ==> m.msg.payload[..sent + wants] == m.msg.payload;
    }
  }

  /** Nothing is left to read. */
  lemma BareEnd(states: Streams, size: nat, m: OutMessage)
    requires Chunkable(m) && size > 0
    ensures ReadMessage(states, size, Bare(m, |m.msg.payload|, size)) == Starved
  {
  }

  /**
    A message that begins with format 3, behind another on its stream: the reader returns it exactly when
    it has the time, the type and the length of the one before. The time between them is not added again.
   */
  lemma BareStart(s: Sender, r: Reader, m: OutMessage)
    requires InStep(s, r) && Chunkable(m) && m.cid in s.last && m.cid !in s.flight && Chunkable(s.last[m.cid])
    ensures var got := ReadMessage(r.states, r.size, Bare(m, 0, r.size));
      var before := s.last[m.cid].msg;
      got.Got? && got.msg == m.msg <==>
        before.ts == m.msg.ts && before.mtype == m.msg.mtype && |before.payload| == |m.msg.payload|
  {
    hide ReadMessage, Bare;
    assert Follows(r.states, m.cid, s.last[m.cid], 0);
    assert m.msg.payload[..0] == [] && s.last[m.cid].msg.payload[..0] == [];
    BareReads(r.states, r.size, m, 0);
  }

  // ---------------------------------------------------------------------------------
  // Whole messages one after the other, as the writers of this library send them
  // ---------------------------------------------------------------------------------

  predicate AllSendable(ms: seq<OutMessage>) {
    forall i :: 0 <= i < |ms| ==> Sendable(ms[i])
  }

  /** The wire of a list of messages, each framed under the chunk size the ones before announced. */
  function FrameAll(ms: seq<OutMessage>, size: nat): bytes
    requires size > 0 && AllSendable(ms)
    decreases |ms|
  {
    if ms == [] then [] else Frame(ms[0], size) + FrameAll(ms[1..], SizeAfter(size, ms[0].msg))
  }

  function Plain(ms: seq<OutMessage>): seq<Message> {
    seq(|ms|, i requires 0 <= i < |ms| => ms[i].msg)
  }

  /** The actions that send the rest of one message, then the others whole. */
  function Schedule(ms: seq<OutMessage>, sent: nat, size: nat): seq<Action>
    requires size > 0 && AllSendable(ms)
    requires ms != [] ==> sent < |ms[0].msg.payload|
    decreases |ms|, if ms == [] then 0 else |ms[0].msg.payload| - sent
  {
    if ms == [] then []
    else
      var m := ms[0];
      var upto := sent + Min(|m.msg.payload| - sent, size);
      [if sent == 0 then Begin(m, 0) else Continue(m.cid)] +
      if upto < |m.msg.payload| then Schedule(ms, upto, size)
      else Schedule(ms[1..], 0, SizeAfter(size, m.msg))
  }

  /** What a schedule puts on the wire. */
  function ScheduleWire(ms: seq<OutMessage>, sent: nat, size: nat): bytes
    requires size > 0 && AllSendable(ms)
    requires ms != [] ==> sent < |ms[0].msg.payload|
  {
    if sent == 0 then FrameAll(ms, size)
    else if ms == [] then []
    else Continuation(ms[0], sent, size) + FrameAll(ms[1..], SizeAfter(size, ms[0].msg))
  }

  function FlightOf(ms: seq<OutMessage>, sent: nat): map<nat, (OutMessage, nat)> {
    if ms != [] && sent > 0 then map[ms[0].cid := (ms[0], sent)] else map[]
  }

  lemma ScheduleAction(ms: seq<OutMessage>, sent: nat, s: Sender)
    requires ms != [] && s.size > 0 && AllSendable(ms) && sent < |ms[0].msg.payload| && s.flight == FlightOf(ms, sent)
    ensures var (m, a) := (ms[0], Schedule(ms, sent, s.size)[0]);
            var upto := sent + Min(|m.msg.payload| - sent, s.size);
            && Allowed(s, a)
            && SendStep(s, a).flight == (if upto < |m.msg.payload| then FlightOf(ms, upto) else map[])
            && SendStep(s, a).size == (if upto < |m.msg.payload| then s.size else SizeAfter(s.size, m.msg))
            && Completed(s, a) == (if upto < |m.msg.payload| then [] else [m.msg])
            && ChunkBytes(s, a) == (if sent == 0 then MessageHeader(m) else [0xC0 + m.cid]) + m.msg.payload[sent..upto]
  {
    hide MessageHeader, StartHeader;
    assert Sendable(ms[0]);
    PlainHeader(Previous(s, ms[0]), ms[0]);
  }

  /** The header this library writes is the format-0 one. */
  lemma PlainHeader(prev: OutMessage, m: OutMessage)
    requires Sendable(m)
    ensures StartHeader(prev, m, 0) == MessageHeader(m) && BasicHeader(3, m.cid) == [0xC0 + m.cid]
  {
  }

  lemma NextSizePositive(ms: seq<OutMessage>, size: nat)
    requires ms != [] && size > 0 && AllSendable(ms)
    ensures SizeAfter(size, ms[0].msg) > 0 && AllSendable(ms[1..]) && Sendable(ms[0])
    ensures |ms| > 1 ==> 0 < |ms[1].msg.payload|
  {
  }

  lemma MessageOnWire(ms: seq<OutMessage>, sent: nat, size: nat, upto: nat)
    requires ms != [] && size > 0 && AllSendable(ms) && sent < |ms[0].msg.payload|
    requires upto == sent + Min(|ms[0].msg.payload| - sent, size)
    ensures ScheduleWire(ms, sent, size) ==
            (if sent == 0 then MessageHeader(ms[0]) else [0xC0 + ms[0].cid]) + ms[0].msg.payload[sent..upto]
            + Continuation(ms[0], upto, size) + FrameAll(ms[1..], SizeAfter(size, ms[0].msg))
  {
    hide MessageHeader, SizeAfter, Continuation;
    ContinuationHead(ms[0], sent, size);
  }

  lemma ContinuationHead(m: OutMessage, sent: nat, size: nat)
    requires m.cid < 64 && sent < |m.msg.payload| && size > 0
    ensures var upto := sent + Min(|m.msg.payload| - sent, size);
      Continuation(m, sent, size) == [0xC0 + m.cid] + m.msg.payload[sent..upto] + Continuation(m, upto, size)
  {
  }

  lemma RestOnWire(ms: seq<OutMessage>, upto: nat, size: nat)
    requires ms != [] && size > 0 && AllSendable(ms) && 0 < upto <= |ms[0].msg.payload|
    ensures Continuation(ms[0], upto, size) + FrameAll(ms[1..], SizeAfter(size, ms[0].msg)) ==
            if upto < |ms[0].msg.payload| then ScheduleWire(ms, upto, size)
            else ScheduleWire(ms[1..], 0, SizeAfter(size, ms[0].msg))
  {
    hide MessageHeader, SizeAfter;
    NextSizePositive(ms, size);
    var rest := FrameAll(ms[1..], SizeAfter(size, ms[0].msg));
    assert [] + rest == rest;
  }

  lemma ScheduleWireStep(ms: seq<OutMessage>, sent: nat, size: nat, upto: nat)
    requires ms != [] && size > 0 && AllSendable(ms) && sent < |ms[0].msg.payload|
    requires upto == sent + Min(|ms[0].msg.payload| - sent, size)
    ensures ScheduleWire(ms, sent, size) ==
            (if sent == 0 then MessageHeader(ms[0]) else [0xC0 + ms[0].cid]) + ms[0].msg.payload[sent..upto]
            + if upto < |ms[0].msg.payload| then ScheduleWire(ms, upto, size)
              else ScheduleWire(ms[1..], 0, SizeAfter(size, ms[0].msg))
  {
    hide MessageHeader, SizeAfter, ScheduleWire, Continuation, FrameAll;
    MessageOnWire(ms, sent, size, upto);
    RestOnWire(ms, upto, size);
  }

  /** A run that leaves nothing under way, the messages it delivers and its bytes. */
  ghost predicate Delivers(s: Sender, run: seq<Action>, msgs: seq<Message>, wire: bytes) {
    && AllAllowed(s, run) && Final(s, run).flight == map[]
    && Delivered(s, run) == msgs && Wire(s, run) == wire
  }

  lemma DeliversStep(s: Sender, a: Action, rest: seq<Action>, msgs: seq<Message>, wire: bytes)
    requires Allowed(s, a) && Delivers(SendStep(s, a), rest, msgs, wire)
    ensures Delivers(s, [a] + rest, Completed(s, a) + msgs, ChunkBytes(s, a) + wire)
  {
    hide Allowed, SendStep, Completed, ChunkBytes;
    assert ([a] + rest)[1..] == rest;
  }

  lemma {:induction false} ScheduleIsWire(ms: seq<OutMessage>, sent: nat, s: Sender)
    requires s.size > 0 && AllSendable(ms) && s.flight == FlightOf(ms, sent)
    requires ms != [] ==> sent < |ms[0].msg.payload|
    ensures Delivers(s, Schedule(ms, sent, s.size), Plain(ms), ScheduleWire(ms, sent, s.size))
    decreases |ms|, if ms == [] then 0 else |ms[0].msg.payload| - sent
  {
    hide MessageHeader, ChunkBytes, Allowed, SendStep, Completed, ScheduleWire, SizeAfter, FlightOf, Plain, Delivers,
         Continuation;
    NothingScheduled(ms, sent, s);
    if ms != [] {
      var m, a := ms[0], Schedule(ms, sent, s.size)[0];
      var upto := sent + Min(|m.msg.payload| - sent, s.size);
      ScheduleAction(ms, sent, s);
      var t := SendStep(s, a);
      ScheduleWireStep(ms, sent, s.size, upto);
      if upto < |m.msg.payload| {
        ScheduleIsWire(ms, upto, t);
        DeliversStep(s, a, Schedule(ms, upto, s.size), Plain(ms), ScheduleWire(ms, upto, s.size));
        assert [] + Plain(ms) == Plain(ms);
      } else {
        NextSizePositive(ms, s.size);
        NothingInFlight(ms[1..]);
        ScheduleIsWire(ms[1..], 0, t);
        DeliversStep(s, a, Schedule(ms[1..], 0, t.size), Plain(ms[1..]), ScheduleWire(ms[1..], 0, t.size));
        PlainHead(ms);
      }
    }
  }

  lemma NothingInFlight(ms: seq<OutMessage>)
    ensures FlightOf(ms, 0) == map[]
  {
  }

  lemma PlainHead(ms: seq<OutMessage>)
    requires ms != []
    ensures Plain(ms) == [ms[0].msg] + Plain(ms[1..])
  {
  }

  lemma NothingScheduled(ms: seq<OutMessage>, sent: nat, s: Sender)
    requires s.size > 0 && AllSendable(ms) && s.flight == FlightOf(ms, sent)
    requires ms != [] ==> sent < |ms[0].msg.payload|
    ensures ms == [] ==> Delivers(s, Schedule(ms, sent, s.size), Plain(ms), ScheduleWire(ms, sent, s.size))
  {
  }

  /**
    Chunk-size synchronisation over a run: messages framed one after the other, with new chunk
    sizes announced in band, come out of the reader unchanged and to the last byte.
   */
  lemma FramedRunRoundTrip(ms: seq<OutMessage>, size: nat, r: Reader)
    requires size > 0 && r.size == Min(size, MAX_CHUNK_SIZE) && AllSendable(ms)
    ensures Pump(r, FrameAll(ms, size)) == Pumped(Plain(ms), |FrameAll(ms, size)|)
  {
    var s := Sender(map[], map[], size);
    ScheduleIsWire(ms, 0, s);
    Demultiplex(s, r, Schedule(ms, 0, size));
  }
}
