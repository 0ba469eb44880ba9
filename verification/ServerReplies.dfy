/**
  What the ingest server writes back while it serves: acknowledgements as its window fills, and echoes of
  pings, up to the command that ends the stream.
 */
module ServerReplies {
  import opened Bytes
  import opened Mux
  import opened Chunks
  import opened Publish
  import opened Transports
  import opened Servers
  import K = Acknowledgements
  import A = Amf0
  import Flv

  /** A message and the bytes it took. */
  datatype Arrival = Arrival(msg: Message, used: nat)

  /** What a reader takes from the publisher's bytes; it stops at a chunk size of zero. */
  function Arrivals(r: Reader, d: bytes): seq<Arrival>
    decreases |d|
  {
    match ReadMessage(r.states, r.size, d)
    case Starved => []
    case Got(states, used, m) =>
      [Arrival(m, used)] +
      match HandleControl(r.(states := states), m)
      case None => []
      case Some(next) => Arrivals(next, d[used..])
  }

  /** The commands that end a stream, and nothing else about a message does. */
  predicate EndsStream(m: Message) {
    m.mtype == 20 &&
    var vals := A.ReadAll(m.payload, 0);
    vals != [] && vals[0] in {A.Str(Ascii("deleteStream")), A.Str(Ascii("closeStream")), A.Str(Ascii("FCUnpublish"))}
  }

  /** Bytes received, the window in force and the counter acknowledged last. */
  datatype Ear = Ear(received: nat, window: nat, lastAck: nat)

  predicate Due(e: Ear, received: nat) {
    e.window != 0 && received - e.lastAck >= e.window
  }

  function Echo(m: Message): seq<OutMessage> {
    if m.mtype == 4 && |m.payload| >= 6 && m.payload[..2] == [0, 0] then [Control(4, [0, 1] + m.payload[2..6])] else []
  }

  /** Each message may fill the window, and then the counter goes out; a ping comes back with its stamp. */
  function Replies(e: Ear, arrivals: seq<Arrival>): seq<OutMessage>
    decreases |arrivals|
  {
    if arrivals == [] then []
    else
      var m, got := arrivals[0].msg, e.received + arrivals[0].used;
      var next := Ear(got, K.WindowOf(e.window, m), if Due(e, got) then got else e.lastAck);
      (if Due(e, got) then [Control(3, Be32(got % TWO_32))] else [])
      + if EndsStream(m) then [] else Echo(m) + Replies(next, arrivals[1..])
  }

  function FrameEach(ms: seq<OutMessage>, size: nat): bytes
    requires size > 0 && forall i :: 0 <= i < |ms| ==> ms[i].cid < 64
    decreases |ms|
  {
    if ms == [] then [] else Frame(ms[0], size) + FrameEach(ms[1..], size)
  }

  lemma {:induction false} FrameEachAppend(a: seq<OutMessage>, b: seq<OutMessage>, size: nat)
    requires size > 0 && (forall i :: 0 <= i < |a| ==> a[i].cid < 64) && forall i :: 0 <= i < |b| ==> b[i].cid < 64
    ensures FrameEach(a + b, size) == FrameEach(a, size) + FrameEach(b, size)
    decreases |a|
  {
    hide Frame;
    if a == [] {
      assert a + b == b;
    } else {
      assert (a + b)[1..] == a[1..] + b;
      FrameEachAppend(a[1..], b, size);
    }
  }

  lemma {:induction false} RepliesShort(e: Ear, arrivals: seq<Arrival>)
    ensures forall i :: 0 <= i < |Replies(e, arrivals)| ==> Replies(e, arrivals)[i].cid < 64
    decreases |arrivals|
  {
    hide EndsStream, Due;
    if arrivals != [] {
      var m, got := arrivals[0].msg, e.received + arrivals[0].used;
      RepliesShort(Ear(got, K.WindowOf(e.window, m), if Due(e, got) then got else e.lastAck), arrivals[1..]);
    }
  }

  /** The bytes of all replies under one chunk size. */
  function ReplyBytes(e: Ear, arrivals: seq<Arrival>, size: nat): bytes
    requires size > 0
  {
    RepliesShort(e, arrivals);
    FrameEach(Replies(e, arrivals), size)
  }

  function EarOf(s: Serving): Ear {
    Ear(s.received, s.windowAck, s.lastAckAt)
  }

  lemma EndsIsExact(m: Message)
    ensures m.mtype == MSG_AMF0_COMMAND && Ends(m) <==> EndsStream(m)
  {
    hide A.ReadAll, Ascii;
  }

  lemma PutNothing(s: Sink)
    ensures Put(s, []) == s || s.dead
    ensures s.dead ==> forall b: bytes :: Put(s, b) == s
  {
    if !s.dead {
      assert s.log + [] == s.log;
    }
  }

  lemma OneFrame(m: OutMessage, size: nat)
    requires size > 0 && m.cid < 64
    ensures FrameEach([m], size) == Frame(m, size) && FrameEach([], size) == []
  {
    hide Frame;
    assert [m][1..] == [];
    assert Frame(m, size) + [] == Frame(m, size);
  }

  function AckHere(e: Ear, received: nat): seq<OutMessage> {
    if Due(e, received) then [Control(3, Be32(received % TWO_32))] else []
  }

  /** The acknowledgement step puts just its frame on the wire. */
  lemma AckPuts(s: Serving)
    requires s.outgoingChunk > 0 && s.lastAckAt <= s.received
    ensures var (a, ok) := AckDue(s);
      var e, acks := EarOf(s), AckHere(EarOf(s), s.received);
      && (forall i :: 0 <= i < |acks| ==> acks[i].cid < 64)
      && a.sink == Put(s.sink, FrameEach(acks, s.outgoingChunk)) && (!ok ==> a.sink.dead)
      && (ok ==> a == s.(sink := a.sink, lastAckAt := if Due(e, s.received) then s.received else s.lastAckAt))
      && a.calls == s.calls
  {
    hide Frame;
    PutNothing(s.sink);
    OneFrame(Control(3, Be32(s.received % TWO_32)), s.outgoingChunk);
  }

  lemma EchoIs(m: Message)
    ensures forall i :: 0 <= i < |Echo(m)| ==> Echo(m)[i].cid < 64
    ensures m.mtype == MSG_USER_CONTROL && |m.payload| >= 6 && Rd16(m.payload[..2]) == UCM_PING_REQUEST ==>
      Echo(m) == [Control(MSG_USER_CONTROL, Be16(UCM_PING_RESPONSE) + Be32(Rd32(m.payload[2..6])))]
    ensures !(m.mtype == MSG_USER_CONTROL && |m.payload| >= 6 && Rd16(m.payload[..2]) == UCM_PING_REQUEST) ==>
      Echo(m) == []
  {
    if |m.payload| >= 6 {
      Be32Rd32(m.payload[2..6]);
      assert Be16(UCM_PING_RESPONSE) == [0, 1];
      var head := m.payload[..2];
      assert Rd16(head) == head[0] as int * 0x100 + head[1];
      assert Rd16(head) == 0 <==> head == [0, 0];
    }
  }

  /** A control message: its echo, and what it announces. */
  lemma ReactPuts(s: Serving, m: Message)
    requires s.outgoingChunk > 0 && !IsMediaMessage(m) && m.mtype != MSG_AMF0_COMMAND
    ensures var (b, ok) := ReactTo(s, m);
      && (forall i :: 0 <= i < |Echo(m)| ==> Echo(m)[i].cid < 64)
      && b.sink == Put(s.sink, FrameEach(Echo(m), s.outgoingChunk))
      && (!ok ==> b.sink.dead || HandleControl(s.reader, m).None?)
      && (ok ==> HandleControl(s.reader, m) == Some(b.reader) && b.windowAck == K.WindowOf(s.windowAck, m)
                 && b.received == s.received && b.lastAckAt == s.lastAckAt && b.outgoingChunk == s.outgoingChunk)
  {
    hide Frame, FrameEach;
    PutNothing(s.sink);
    EchoIs(m);
    OneFrame(Control(MSG_USER_CONTROL, []), s.outgoingChunk);
    if Echo(m) != [] {
      OneFrame(Echo(m)[0], s.outgoingChunk);
      assert Echo(m) == [Echo(m)[0]];
    }
  }

  lemma QuietMessage(s: Serving, m: Message)
    requires IsMediaMessage(m) || m.mtype == MSG_AMF0_COMMAND
    ensures Echo(m) == [] && (forall w: nat :: K.WindowOf(w, m) == w) && HandleControl(s.reader, m) == Some(s.reader)
    ensures IsMediaMessage(m) ==> !EndsStream(m)
    ensures var t := Dispatch(s, m); t == s.(avcc := t.avcc, asc := t.asc, calls := t.calls)
  {
    hide A.ReadAll, Flv.DecodeTag;
  }

  lemma NoEnd(m: Message)
    requires m.mtype != MSG_AMF0_COMMAND
    ensures !EndsStream(m)
  {
    hide A.ReadAll;
  }

  lemma DeadEnd(s: Sink, b: bytes, more: bytes)
    requires Put(s, b).dead
    ensures Put(s, b + more) == Put(s, b)
  {
    PutPieces(s, b, more);
  }

  function NextEar(e: Ear, a: Arrival): Ear {
    var got := e.received + a.used;
    Ear(got, K.WindowOf(e.window, a.msg), if Due(e, got) then got else e.lastAck)
  }

  lemma NoReplies(e: Ear, size: nat)
    requires size > 0
    ensures ReplyBytes(e, [], size) == []
  {
  }

  lemma Unfold(e: Ear, a: Arrival, rest: seq<Arrival>, size: nat)
    requires size > 0
    ensures var acks := AckHere(e, e.received + a.used);
      && (forall i :: 0 <= i < |acks| ==> acks[i].cid < 64)
      && (forall i :: 0 <= i < |Echo(a.msg)| ==> Echo(a.msg)[i].cid < 64)
      && ReplyBytes(e, [a] + rest, size) == FrameEach(acks, size)
           + if EndsStream(a.msg) then [] else FrameEach(Echo(a.msg), size) + ReplyBytes(NextEar(e, a), rest, size)
  {
    hide Frame, EndsStream, Echo, Due, K.WindowOf;
    assert ([a] + rest)[1..] == rest;
    EchoIs(a.msg);
    var acks, later := AckHere(e, e.received + a.used), Replies(NextEar(e, a), rest);
    RepliesShort(NextEar(e, a), rest);
    RepliesShort(e, [a] + rest);
    if EndsStream(a.msg) {
      assert acks + [] == acks;
    } else {
      FrameEachAppend(Echo(a.msg), later, size);
      FrameEachAppend(acks, Echo(a.msg) + later, size);
      assert acks + Echo(a.msg) + later == acks + (Echo(a.msg) + later);
    }
  }

  /** The replies to one message, and where they leave the session. */
  lemma TurnWrites(s: Serving, m: Message)
    requires s.outgoingChunk > 0 && s.lastAckAt <= s.received
    ensures var acks := AckHere(EarOf(s), s.received);
      && (forall i :: 0 <= i < |acks| ==> acks[i].cid < 64) && (forall i :: 0 <= i < |Echo(m)| ==> Echo(m)[i].cid < 64)
      && var t, ack, echo := TakeMessage(s, m), FrameEach(acks, s.outgoingChunk), FrameEach(Echo(m), s.outgoingChunk);
      match t
      case EndedBy(n) => EndsStream(m) && n.sink == Put(s.sink, ack)
      case GoOn(n) =>
        && !EndsStream(m) && n.sink == Put(s.sink, ack + echo) && HandleControl(s.reader, m) == Some(n.reader)
        && n.outgoingChunk == s.outgoingChunk && n.received == s.received
        && n.windowAck == K.WindowOf(s.windowAck, m)
        && n.lastAckAt == if Due(EarOf(s), s.received) then s.received else s.lastAckAt
      case Failed(n) =>
        || (n.sink.dead && n.sink == Put(s.sink, ack))
        || (!EndsStream(m) && n.sink == Put(s.sink, ack + echo) && (n.sink.dead || HandleControl(s.reader, m).None?))
  {
    hide FrameEach, Frame, Echo, AckDue, ReactTo, Dispatch, Ends, EndsStream, HandleControl, K.WindowOf, Put;
    EchoIs(m);
    AckPuts(s);
    var (a, ok) := AckDue(s);
    var ack, echo := FrameEach(AckHere(EarOf(s), s.received), s.outgoingChunk), FrameEach(Echo(m), s.outgoingChunk);
    if ok {
      PutPieces(s.sink, ack, echo);
      EndsIsExact(m);
      if IsMediaMessage(m) || m.mtype == MSG_AMF0_COMMAND {
        QuietMessage(a, m);
        NoFrames(s.outgoingChunk);
        assert ack + [] == ack;
      } else {
        NoEnd(m);
        ReactPuts(a, m);
      }
    }
  }

  lemma NoFrames(size: nat)
    requires size > 0
    ensures FrameEach([], size) == []
  {
  }

  /** Over everything a publisher sends, the server writes exactly its replies, as far as they find room. */
  lemma {:induction false} ServerReplies(s: Serving, d: bytes)
    requires s.outgoingChunk > 0 && s.lastAckAt <= s.received
    ensures PumpSession(s, d).0.sink ==
      Put(s.sink, ReplyBytes(EarOf(s), Arrivals(s.reader, d), s.outgoingChunk))
    decreases |d|
  {
    hide ReadMessage, TakeMessage, EndsStream, FrameEach, HandleControl, Echo, AckHere, K.WindowOf, ReplyBytes, Put,
         Due;
    NoReplies(EarOf(s), s.outgoingChunk);
    PutNothing(s.sink);
    match ReadMessage(s.reader.states, s.reader.size, d)
    case Starved =>
    case Got(states, used, m) =>
      var size, n := s.outgoingChunk, s.(reader := s.reader.(states := states), received := s.received + used);
      TurnKeepsChunk(n, m);
      TurnWrites(n, m);
      var a := Arrival(m, used);
      var rest := match HandleControl(n.reader, m) case None => [] case Some(next) => Arrivals(next, d[used..]);
      assert Arrivals(s.reader, d) == [a] + rest;
      Unfold(EarOf(s), a, rest, size);
      AckAsBefore(s, used);
      var ack, echo := FrameEach(AckHere(EarOf(n), n.received), size), FrameEach(Echo(m), size);
      var later := ReplyBytes(NextEar(EarOf(s), a), rest, size);
      assert ack + (echo + later) == ack + echo + later;
      match TakeMessage(n, m)
      case EndedBy(t) =>
        assert ack + [] == ack;
      case GoOn(t) =>
        ServerReplies(t, d[used..]);
        PutPieces(s.sink, ack + echo, later);
      case Failed(t) =>
        NoReplies(NextEar(EarOf(s), a), size);
        if t.sink.dead && t.sink == Put(s.sink, ack) {
          DeadEnd(s.sink, ack, if EndsStream(m) then [] else echo + later);
        } else if t.sink.dead {
          DeadEnd(s.sink, ack + echo, later);
        } else {
          assert ack + echo + [] == ack + echo;
        }
  }

  /** Whether an acknowledgement is due depends on what was announced before the message. */
  lemma AckAsBefore(s: Serving, used: nat)
    ensures var n := s.(received := s.received + used);
      && AckHere(EarOf(n), n.received) == AckHere(EarOf(s), n.received)
      && (Due(EarOf(n), n.received) <==> Due(EarOf(s), n.received))
  {
  }
}
