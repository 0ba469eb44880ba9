/**
  The receiving end: an accepted publish session pumps its socket, answers the control plane and hands
  decoded media to its handler. `Serving` is its state as a value, `PublishSession` the object.
 */
module Servers {
  import opened Bytes
  import opened Media
  import opened FlvTags
  import opened Mux
  import opened Timeline
  import opened Chunks
  import opened ChunkReading
  import opened Publish
  import opened Transports
  import TR = TransportRuns
  import A = Amf0
  import Flv

  const NEGOTIATED_CHUNK_SIZE := 4096
  const ACK_WINDOW := 2_500_000

  /** What the handler is told. */
  datatype HandlerCall = Configure(avcc: Option<bytes>, asc: Option<bytes>) | Deliver(packet: MediaPacket) | Over

  datatype Serving = Serving(
    sink: Sink, outgoingChunk: nat, windowAck: nat, lastAckAt: nat, reader: Reader, received: nat,
    avcc: Option<bytes>, asc: Option<bytes>, calls: seq<HandlerCall>)

  const NEW_SESSION_CHUNK := DEFAULT_CHUNK_SIZE

  function NewServing(sink: Sink): Serving {
    Serving(sink, NEW_SESSION_CHUNK, 0, 0, NEW_READER, 0, None, None, [])
  }

  function SendOut(s: Serving, m: OutMessage): (Serving, bool)
    requires s.outgoingChunk > 0 && m.cid < 64
  {
    var sink := Put(s.sink, Frame(m, s.outgoingChunk));
    (s.(sink := sink), !sink.dead)
  }

  function AckDue(s: Serving): (Serving, bool)
    requires s.outgoingChunk > 0
  {
    if s.windowAck != 0 && s.received >= s.lastAckAt + s.windowAck then
      var (n, ok) := SendOut(s, Control(MSG_ACK, Be32(s.received % TWO_32)));
      (if ok then n.(lastAckAt := s.received) else n, ok)
    else (s, true)
  }

  /** Sequence headers update the merged configuration; frames are delivered; the undecodable is skipped. */
  function Dispatch(s: Serving, m: Message): Serving {
    match Flv.DecodeTag(m.mtype, m.ts, m.payload)
    case None => s
    case Some(VideoConfig(avcc)) => s.(avcc := Some(avcc), calls := s.calls + [Configure(Some(avcc), s.asc)])
    case Some(AudioConfig(asc)) => s.(asc := Some(asc), calls := s.calls + [Configure(s.avcc, Some(asc))])
    case Some(Packet(p)) => s.(calls := s.calls + [Deliver(p)])
  }

  /** Commands that end the publish. */
  predicate Ends(m: Message) {
    var vals := A.ReadAll(m.payload, 0);
    vals != [] && vals[0].Str? &&
    (vals[0].s == Ascii("deleteStream") || vals[0].s == Ascii("closeStream") || vals[0].s == Ascii("FCUnpublish"))
  }

  function ReactTo(s: Serving, m: Message): (Serving, bool)
    requires s.outgoingChunk > 0
  {
    var p := m.payload;
    if m.mtype == MSG_SET_CHUNK_SIZE || m.mtype == MSG_ABORT then
      match HandleControl(s.reader, m)
      case None => (s, false)
      case Some(r) => (s.(reader := r), true)
    else if (m.mtype == MSG_WINDOW_ACK || m.mtype == MSG_SET_PEER_BW) && |p| >= 4 then
      (s.(windowAck := Rd32(p[..4])), true)
    else if m.mtype == MSG_USER_CONTROL && |p| >= 6 && Rd16(p[..2]) == UCM_PING_REQUEST then
      SendOut(s, Control(MSG_USER_CONTROL, Be16(UCM_PING_RESPONSE) + Be32(Rd32(p[2..6]))))
    else (s, true)
  }

  predicate IsMediaMessage(m: Message) {
    m.mtype == MSG_VIDEO || m.mtype == MSG_AUDIO
  }

  /** One message once it is acknowledged: the state, and whether the pump goes on. */
  datatype Turn = GoOn(s: Serving) | EndedBy(s: Serving) | Failed(s: Serving)

  function TakeMessage(s: Serving, m: Message): Turn
    requires s.outgoingChunk > 0
  {
    var (a, ok) := AckDue(s);
    if !ok then Failed(a)
    else if IsMediaMessage(m) then GoOn(Dispatch(a, m))
    else if m.mtype == MSG_AMF0_COMMAND then
      if Ends(m) then EndedBy(a.(calls := a.calls + [Over])) else GoOn(a)
    else
      var (b, reacted) := ReactTo(a, m);
      if reacted then GoOn(b) else Failed(b)
  }

  lemma TurnKeepsChunk(s: Serving, m: Message)
    requires s.outgoingChunk > 0
    ensures TakeMessage(s, m).s.outgoingChunk == s.outgoingChunk
  {
    hide Frame, Put, HandleControl, Ends, Flv.DecodeTag;
  }

  /** Pumps until the publisher ends the stream or the connection closes; false is a failure. */
  function PumpSession(s: Serving, d: bytes): (Serving, bool)
    requires s.outgoingChunk > 0
    decreases |d|
  {
    match ReadMessage(s.reader.states, s.reader.size, d)
    case Starved => (s.(calls := s.calls + [Over]), true)
    case Got(states, used, m) =>
      var n := s.(reader := s.reader.(states := states), received := s.received + used);
      TurnKeepsChunk(n, m);
      match TakeMessage(n, m)
      case Failed(t) => (t, false)
      case EndedBy(t) => (t, true)
      case GoOn(t) => PumpSession(t, d[used..])
  }

  // ---------------------------------------------------------------------------------
  // The object
  // ---------------------------------------------------------------------------------

  class PublishSession {
    const sock: ByteSink
    const reader: ChunkReader
    var outgoingChunk: nat
    var windowAck: nat
    var lastAckAt: nat
    var avcc: Option<bytes>
    var asc: Option<bytes>
    var calls: seq<HandlerCall>

    function View(): Serving
      reads this, sock, reader
    {
      Serving(sock.View(), outgoingChunk, windowAck, lastAckAt, reader.View(), reader.bytesRead, avcc, asc, calls)
    }

    constructor (sock: ByteSink)
      ensures View() == NewServing(sock.View()) && this.sock == sock && fresh(reader)
    {
      this.sock := sock;
      reader := new ChunkReader();
      outgoingChunk, windowAck, lastAckAt := NEW_SESSION_CHUNK, 0, 0;
      avcc, asc, calls := None, None, [];
    }

    method SendMessage(m: OutMessage) returns (ok: bool)
      requires outgoingChunk > 0 && m.cid < 64
      modifies sock
      ensures (View(), ok) == SendOut(old(View()), m)
    {
      hide Frame, Put;
      var out := FrameMessage(m, outgoingChunk);
      ok := sock.WriteAll(out);
    }

    /** The chunk size message still goes out at the old size; everything after it at the new one. */
    method AnnounceLimits() returns (ok: bool)
      requires outgoingChunk == DEFAULT_CHUNK_SIZE
      modifies this`outgoingChunk, sock
      ensures sock.View() == Put(old(sock.View()), LimitsWire()) && ok == !sock.dead
      ensures outgoingChunk ==
        if Put(old(sock.View()), Frame(Limits()[0], DEFAULT_CHUNK_SIZE)).dead then DEFAULT_CHUNK_SIZE
        else NEGOTIATED_CHUNK_SIZE
    {
      hide Frame, LimitsWire;
      ghost var s := sock.View();
      LimitsFrames();
      PutPieces(s, Frame(Limits()[0], DEFAULT_CHUNK_SIZE), Frame(Limits()[1], NEGOTIATED_CHUNK_SIZE));
      PutPieces(s, Frame(Limits()[0], DEFAULT_CHUNK_SIZE) + Frame(Limits()[1], NEGOTIATED_CHUNK_SIZE),
                Frame(Limits()[2], NEGOTIATED_CHUNK_SIZE));
      ok := SendMessage(Limits()[0]);
      if !ok {
        return false;
      }
      outgoingChunk := NEGOTIATED_CHUNK_SIZE;
      ok := SendMessage(Limits()[1]);
      if !ok {
        return false;
      }
      ok := SendMessage(Limits()[2]);
    }

    method MaybeSendAck() returns (ok: bool)
      requires outgoingChunk > 0
      modifies this`lastAckAt, sock
      ensures (View(), ok) == AckDue(old(View()))
    {
      hide Frame, Put, SendOut;
      var received := reader.bytesRead;
      if windowAck != 0 && received >= lastAckAt + windowAck {
        ok := SendMessage(Control(MSG_ACK, Be32(received % TWO_32)));
        if ok {
          lastAckAt := received;
        }
        return;
      }
      return true;
    }

    method DispatchMedia(m: Message)
      modifies this`avcc, this`asc, this`calls
      ensures View() == Dispatch(old(View()), m)
    {
      hide Flv.DecodeTag;
      var d := Flv.DecodeTag(m.mtype, m.ts, m.payload);
      if d.None? {
        return;
      }
      match d.value
      case VideoConfig(avcc) =>
        this.avcc := Some(avcc);
        calls := calls + [Configure(Some(avcc), asc)];
      case AudioConfig(asc) =>
        this.asc := Some(asc);
        calls := calls + [Configure(avcc, Some(asc))];
      case Packet(p) =>
        calls := calls + [Deliver(p)];
    }

    method HandleMessage(m: Message) returns (ok: bool)
      requires outgoingChunk > 0
      modifies this`windowAck, sock, reader
      ensures (View(), ok) == ReactTo(old(View()), m)
    {
      hide Frame, Put, SendOut;
      var p := m.payload;
      if m.mtype == MSG_SET_CHUNK_SIZE && |p| >= 4 {
        ok := reader.SetChunkSize(Rd32(p[..4]));
        return;
      } else if m.mtype == MSG_ABORT && |p| >= 4 {
        reader.Abort(Rd32(p[..4]));
      } else if m.mtype == MSG_WINDOW_ACK && |p| >= 4 {
        windowAck := Rd32(p[..4]);
      } else if m.mtype == MSG_SET_PEER_BW && |p| >= 4 {
        windowAck := Rd32(p[..4]);
      } else if m.mtype == MSG_USER_CONTROL && |p| >= 2 {
        var event := Rd16(p[..2]);
        if event == UCM_PING_REQUEST && |p| >= 6 {
          ok := SendMessage(Control(MSG_USER_CONTROL, Be16(UCM_PING_RESPONSE) + Be32(Rd32(p[2..6]))));
          return;
        }
      }
      return true;
    }

    /** A command in mid-stream: true when it ends the publish. */
    method HandleCommand(m: Message) returns (ends: bool)
      modifies this`calls
      ensures ends == Ends(m)
      ensures View() == if ends then old(View()).(calls := old(View()).calls + [Over]) else old(View())
    {
      hide A.ReadAll, Ascii;
      var r := new A.Reader(m.payload);
      var vals := r.TakeAll();
      if vals == [] || !vals[0].Str? {
        return false;
      }
      var name := vals[0].s;
      if name == Ascii("deleteStream") || name == Ascii("closeStream") || name == Ascii("FCUnpublish") {
        calls := calls + [Over];
        return true;
      }
      return false;
    }

    method TakeOne(m: Message) returns (goesOn: bool, ok: bool)
      requires outgoingChunk > 0
      modifies this, sock, reader
      ensures var t := TakeMessage(old(View()), m);
        View() == t.s && goesOn == t.GoOn? && ok == !t.Failed?
    {
      hide AckDue, Dispatch, Ends, ReactTo;
      ok := MaybeSendAck();
      if !ok {
        return false, false;
      }
      if IsMediaMessage(m) {
        DispatchMedia(m);
      } else if m.mtype == MSG_AMF0_COMMAND {
        var ends := HandleCommand(m);
        if ends {
          return false, true;
        }
      } else {
        ok := HandleMessage(m);
        return ok, ok;
      }
      return true, true;
    }

    /** Serves the connection; its end, even inside a message, finishes the stream cleanly. */
    method PumpSocket(input: ByteSource) returns (ok: bool)
      requires outgoingChunk > 0 && input.Valid()
      modifies this, sock, reader, input
      ensures ok == PumpSession(old(View()), old(input.Left())).1
      ensures calls == PumpSession(old(View()), old(input.Left())).0.calls
      ensures sock.View() == PumpSession(old(View()), old(input.Left())).0.sink
    {
      hide ReadMessage, TakeMessage;
      ghost var whole := PumpSession(View(), input.Left());
      while true
        invariant input.Valid() && outgoingChunk > 0
        invariant PumpSession(View(), input.Left()) == whole
        decreases |input.data| - input.pos
      {
        ghost var s, d := View(), input.Left();
        ghost var got := ReadMessage(s.reader.states, s.reader.size, d);
        var r := reader.ReadMsg(input);
        if r.Err? {
          calls := calls + [Over];
          return true;
        }
        assert input.Left() == d[got.used..];
        ghost var n := View();
        assert n == s.(reader := s.reader.(states := got.states), received := s.received + got.used);
        TurnKeepsChunk(n, r.value);
        var goesOn, fine := TakeOne(r.value);
        if !goesOn {
          return fine;
        }
      }
    }
  }

  // ---------------------------------------------------------------------------------
  // Announced limits
  // ---------------------------------------------------------------------------------

  function Limits(): seq<OutMessage> {
    [Control(MSG_SET_CHUNK_SIZE, Be32(NEGOTIATED_CHUNK_SIZE)), Control(MSG_WINDOW_ACK, Be32(ACK_WINDOW)),
     Control(MSG_SET_PEER_BW, Be32(ACK_WINDOW) + [2])]
  }

  function LimitsWire(): bytes {
    Frame(Limits()[0], DEFAULT_CHUNK_SIZE) + Frame(Limits()[1], NEGOTIATED_CHUNK_SIZE)
    + Frame(Limits()[2], NEGOTIATED_CHUNK_SIZE)
  }

  /** Chunks of 4096 bytes, and an acknowledgement every 2.5 million bytes, which the peer may adjust. */
  lemma LimitsSay()
    ensures Plain(Limits()) == [Message(1, 0, [0, 0, 0x10, 0]), Message(5, 0, [0, 0x26, 0x25, 0xA0]),
                                Message(6, 0, [0, 0x26, 0x25, 0xA0, 2])]
  {
    assert Be32(NEGOTIATED_CHUNK_SIZE) == [0, 0, 0x10, 0] && Be32(ACK_WINDOW) == [0, 0x26, 0x25, 0xA0];
    assert Be32(ACK_WINDOW) + [2] == [0, 0x26, 0x25, 0xA0, 2];
  }

  lemma LimitsFrames()
    ensures LimitsWire() == Frame(Limits()[0], DEFAULT_CHUNK_SIZE) + Frame(Limits()[1], NEGOTIATED_CHUNK_SIZE)
                            + Frame(Limits()[2], NEGOTIATED_CHUNK_SIZE)
  {
  }

  lemma LimitsSendable()
    ensures AllSendable(Limits()) && SizeAfter(DEFAULT_CHUNK_SIZE, Limits()[0].msg) == NEGOTIATED_CHUNK_SIZE
    ensures !IsSetChunkSize(Limits()[1].msg) && !IsSetChunkSize(Limits()[2].msg)
  {
    Rd32Be32(NEGOTIATED_CHUNK_SIZE);
  }

  /** A peer that starts at the protocol's default chunk size follows the announced one from then on. */
  lemma AnnouncedInSync(later: seq<OutMessage>)
    requires AllSendable(later)
    ensures var wire := LimitsWire() + FrameAll(later, NEGOTIATED_CHUNK_SIZE);
      Pump(NEW_READER, wire) == Pumped(Plain(Limits() + later), |wire|)
  {
    hide Frame, Sendable, Pump, IsSetChunkSize;
    LimitsSendable();
    var all := Limits() + later;
    assert all[1..][1..][1..] == later && all[1..][0] == Limits()[1] && all[1..][1..][0] == Limits()[2];
    assert AllSendable(all);
    FramedRunRoundTrip(all, DEFAULT_CHUNK_SIZE, NEW_READER);
    var a, b := Frame(Limits()[0], DEFAULT_CHUNK_SIZE), Frame(Limits()[1], NEGOTIATED_CHUNK_SIZE);
    var c := Frame(Limits()[2], NEGOTIATED_CHUNK_SIZE);
    assert FrameAll(all, DEFAULT_CHUNK_SIZE) == a + FrameAll(all[1..], NEGOTIATED_CHUNK_SIZE);
    assert FrameAll(all[1..], NEGOTIATED_CHUNK_SIZE) == b + FrameAll(all[1..][1..], NEGOTIATED_CHUNK_SIZE);
    assert FrameAll(all[1..][1..], NEGOTIATED_CHUNK_SIZE) == c + FrameAll(later, NEGOTIATED_CHUNK_SIZE);
    var rest := FrameAll(later, NEGOTIATED_CHUNK_SIZE);
    assert LimitsWire() + rest == a + (b + (c + rest));
  }

  // ---------------------------------------------------------------------------------
  // What the handler hears
  // ---------------------------------------------------------------------------------

  /** The handler calls for decoded media, configurations merged as they come. */
  function Replay(avcc: Option<bytes>, asc: Option<bytes>, media: seq<Flv.Decoded>): seq<HandlerCall>
    decreases |media|
  {
    if media == [] then []
    else
      match media[0]
      case VideoConfig(a) => [Configure(Some(a), asc)] + Replay(Some(a), asc, media[1..])
      case AudioConfig(a) => [Configure(avcc, Some(a))] + Replay(avcc, Some(a), media[1..])
      case Packet(p) => [Deliver(p)] + Replay(avcc, asc, media[1..])
  }

  lemma AckHeard(s: Serving)
    requires s.outgoingChunk > 0
    ensures var a := AckDue(s).0;
      && a.reader == s.reader && a.calls == s.calls && a.avcc == s.avcc && a.asc == s.asc
      && a.outgoingChunk == s.outgoingChunk
  {
    hide Frame, Put;
  }

  lemma ReactHeard(s: Serving, m: Message)
    requires s.outgoingChunk > 0 && ReactTo(s, m).1 && !IsMediaMessage(m) && m.mtype != MSG_AMF0_COMMAND
    ensures var t := ReactTo(s, m).0;
      HandleControl(s.reader, m) == Some(t.reader) && t.calls == s.calls && t.avcc == s.avcc && t.asc == s.asc
  {
    hide Frame, Put;
  }

  lemma DispatchHeard(s: Serving, m: Message, rest: seq<Flv.Decoded>)
    requires IsMediaMessage(m)
    ensures var t := Dispatch(s, m);
      && t.reader == s.reader
      && t.calls + Replay(t.avcc, t.asc, rest) == s.calls + Replay(s.avcc, s.asc, IngestOne(m) + rest)
  {
    hide Flv.DecodeTag, Replay;
    match Flv.DecodeTag(m.mtype, m.ts, m.payload)
    case None => assert [] + rest == rest;
    case Some(d) => ReplayHead(s.avcc, s.asc, d, rest);
  }

  lemma ReplayHead(avcc: Option<bytes>, asc: Option<bytes>, d: Flv.Decoded, rest: seq<Flv.Decoded>)
    ensures d.VideoConfig? ==>
      Replay(avcc, asc, [d] + rest) == [Configure(Some(d.avcc), asc)] + Replay(Some(d.avcc), asc, rest)
    ensures d.AudioConfig? ==>
      Replay(avcc, asc, [d] + rest) == [Configure(avcc, Some(d.asc))] + Replay(avcc, Some(d.asc), rest)
    ensures d.Packet? ==> Replay(avcc, asc, [d] + rest) == [Deliver(d.packet)] + Replay(avcc, asc, rest)
  {
    assert ([d] + rest)[1..] == rest && ([d] + rest)[0] == d;
  }

  lemma NotForReader(r: Reader, m: Message)
    ensures m.mtype != MSG_SET_CHUNK_SIZE && m.mtype != MSG_ABORT ==> HandleControl(r, m) == Some(r)
    ensures !IsMediaMessage(m) ==> IngestOne(m) == []
  {
  }

  /** One turn that goes on: the reader is where the plain reader would be, and media reached the handler. */
  lemma TurnHeard(s: Serving, m: Message, rest: seq<Flv.Decoded>)
    requires s.outgoingChunk > 0 && TakeMessage(s, m).GoOn?
    ensures var t := TakeMessage(s, m).s;
      && HandleControl(s.reader, m) == Some(t.reader)
      && t.calls + Replay(t.avcc, t.asc, rest) == s.calls + Replay(s.avcc, s.asc, IngestOne(m) + rest)
  {
    hide AckDue, ReactTo, Dispatch, Ends, HandleControl, IngestOne, Replay;
    AckHeard(s);
    var a := AckDue(s).0;
    NotForReader(s.reader, m);
    if IsMediaMessage(m) {
      DispatchHeard(a, m, rest);
    } else {
      assert [] + rest == rest;
      if m.mtype != MSG_AMF0_COMMAND {
        ReactHeard(a, m);
      }
    }
  }

  /** No command in a message list ends the publish. */
  predicate KeepsGoing(ms: seq<Message>) {
    forall m :: m in ms && m.mtype == MSG_AMF0_COMMAND ==> !Ends(m)
  }

  /**
    A pump that meets no failure and no ending command tells its handler exactly the decoded media of
    the messages that a plain reader takes from the same bytes, in order, and then that it is over.
   */
  lemma {:induction false} HandlerHearsMedia(s: Serving, d: bytes)
    requires s.outgoingChunk > 0 && PumpSession(s, d).1 && KeepsGoing(Pump(s.reader, d).msgs)
    ensures PumpSession(s, d).0.calls == s.calls + Replay(s.avcc, s.asc, Ingest(Pump(s.reader, d).msgs)) + [Over]
    decreases |d|
  {
    hide ReadMessage, TakeMessage, HandleControl, IngestOne, Ends, Replay;
    match ReadMessage(s.reader.states, s.reader.size, d)
    case Starved =>
      NothingToReplay(s.avcc, s.asc);
      assert s.calls + [] == s.calls;
    case Got(states, used, m) =>
      var n := s.(reader := s.reader.(states := states), received := s.received + used);
      TurnKeepsChunk(n, m);
      assert Pump(s.reader, d).msgs[0] == m;
      EndsOnlyByCommand(n, m);
      var t := TakeMessage(n, m).s;
      var rest := Pump(t.reader, d[used..]).msgs;
      TurnHeard(n, m, Ingest(rest));
      assert Pump(s.reader, d).msgs == [m] + rest;
      assert ([m] + rest)[1..] == rest;
      assert KeepsGoing(rest);
      HandlerHearsMedia(t, d[used..]);
  }

  lemma NothingToReplay(avcc: Option<bytes>, asc: Option<bytes>)
    ensures Replay(avcc, asc, []) == []
  {
  }

  lemma EndsOnlyByCommand(s: Serving, m: Message)
    requires s.outgoingChunk > 0
    ensures TakeMessage(s, m).EndedBy? ==> m.mtype == MSG_AMF0_COMMAND && Ends(m)
  {
    hide Frame, Put, Ends, Flv.DecodeTag, AckDue, ReactTo;
  }

  /**
    From publisher to handler: over any successful run of a fresh publishing connection, an ingest
    session whose reader is in step tells its handler exactly the tags of the FLV stream that was
    written, as configurations and packets, whatever control traffic went both ways.
   */
  lemma PublisherToHandler(l: Link, steps: seq<TR.Step>, s: Serving)
    requires l.chunk > 0 && l.pid < TWO_32 && l.sent == [] && l.parser == FRESH && TR.Succeeds(l, steps)
    requires !TR.DoAll(l, steps).sink.dead && AllCarried(TagsOf(Flat(TR.Pieces(steps))))
    requires s.outgoingChunk > 0 && s.reader.size == Min(l.chunk, MAX_CHUNK_SIZE)
    requires |l.sink.log| <= |TR.DoAll(l, steps).sink.log|
    requires PumpSession(s, TR.DoAll(l, steps).sink.log[|l.sink.log|..]).1
    ensures PumpSession(s, TR.DoAll(l, steps).sink.log[|l.sink.log|..]).0.calls ==
            s.calls + Replay(s.avcc, s.asc, DecodeTags(TagsOf(Flat(TR.Pieces(steps))))) + [Over]
  {
    hide TR.DoAll, TR.Succeeds, TR.Pieces, TagsOf, Pump, PumpSession, Replay, AllCarried, Ends;
    TR.MediaSurvivesControlTraffic(l, steps, s.reader);
    HandlerHearsMedia(s, TR.DoAll(l, steps).sink.log[|l.sink.log|..]);
  }

  /**
    From packets to handler: the packets a muxer accepted, written to a fresh connection in whatever
    pieces and between whatever health checks, reach the handler as their frames, in order, each
    behind the sequence header it brought along.
   */
  lemma PacketsReachHandler(m: Mux, ps: seq<MediaPacket>, l: Link, steps: seq<TR.Step>, s: Serving)
    requires Going(m) && AllWritten(m, ps) && AllCarried(TagsOf(m.sink.log)) && DecodeTags(TagsOf(m.sink.log)) == []
    requires Flat(TR.Pieces(steps)) == AfterAll(m, ps).sink.log
    requires l.chunk > 0 && l.pid < TWO_32 && l.sent == [] && l.parser == FRESH && TR.Succeeds(l, steps)
    requires !TR.DoAll(l, steps).sink.dead
    requires s.outgoingChunk > 0 && s.reader.size == Min(l.chunk, MAX_CHUNK_SIZE)
    requires |l.sink.log| <= |TR.DoAll(l, steps).sink.log|
    requires PumpSession(s, TR.DoAll(l, steps).sink.log[|l.sink.log|..]).1
    ensures PumpSession(s, TR.DoAll(l, steps).sink.log[|l.sink.log|..]).0.calls ==
            s.calls + Replay(s.avcc, s.asc, ExpectedAll(m, ps)) + [Over]
  {
    hide TR.DoAll, TR.Succeeds, TR.Pieces, TagsOf, PumpSession, Replay, AllCarried, DecodeTags, AfterAll,
         ExpectedAll, AllWritten, Going;
    RunDecodes(m, ps);
    assert [] + ExpectedAll(m, ps) == ExpectedAll(m, ps);
    PublisherToHandler(l, steps, s);
  }
}
