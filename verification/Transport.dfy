/**
  The publishing side of a connection after its handshake: FLV bytes are parsed and framed onto the
  socket, inbound messages are answered, and a silent peer is probed. `Link` is the state as a value,
  `RtmpTransport` the object. One call reads the clock once.
 */
module Transports {
  import opened Bytes
  import opened FlvTags
  import opened Mux
  import opened Chunks
  import opened ChunkReading
  import opened Publish
  import W = Watchdog

  const MSG_ACK: byte := 3
  const MSG_USER_CONTROL: byte := 4
  const MSG_WINDOW_ACK: byte := 5
  const MSG_SET_PEER_BW: byte := 6
  const MSG_AMF0_COMMAND: byte := 20

  const UCM_PING_REQUEST := 0
  const UCM_PING_RESPONSE := 1
  const UCM_ACK := 3

  const TWO_64: int := 0x1_0000_0000_0000_0000

  /** `sent` lists the messages written in full. */
  datatype Link = Link(
    sink: Sink, chunk: nat, pid: nat, sent: seq<OutMessage>, bytesWritten: nat,
    reader: Reader, received: nat, windowAck: nat, lastAckAt: nat, peerAcked: nat,
    parser: Parser, budget: Option<nat>, watch: W.Watch)

  function Control(mtype: byte, payload: bytes): OutMessage {
    OutMessage(CID_COMMAND, 0, Message(mtype, 0, payload))
  }

  function Send(l: Link, m: OutMessage): (Link, bool)
    requires l.chunk > 0 && m.cid < 64
  {
    var out := Frame(m, l.chunk);
    var s := Put(l.sink, out);
    (l.(sink := s, bytesWritten := (l.bytesWritten + |out|) % TWO_64, sent := if s.dead then l.sent else l.sent + [m]),
     !s.dead)
  }

  function SendAll(l: Link, ms: seq<OutMessage>): (r: (Link, bool))
    requires l.chunk > 0 && forall i :: 0 <= i < |ms| ==> ms[i].cid < 64
    decreases |ms|
  {
    if ms == [] then (l, true)
    else
      var (n, ok) := Send(l, ms[0]);
      if !ok then (n, false) else SendAll(n, ms[1..])
  }

  /** The acknowledgement carries the receive counter modulo 2^32. */
  function MaybeAck(l: Link): (Link, bool)
    requires l.chunk > 0
  {
    if l.windowAck != 0 && l.received >= l.lastAckAt + l.windowAck then
      var (n, ok) := Send(l, Control(MSG_ACK, Be32(l.received % TWO_32)));
      (if ok then n.(lastAckAt := l.received) else n, ok)
    else (l, true)
  }

  function React(l: Link, m: Message): (Link, bool)
    requires l.chunk > 0
  {
    var p := m.payload;
    if m.mtype == MSG_SET_CHUNK_SIZE || m.mtype == MSG_ABORT then
      match HandleControl(l.reader, m)
      case None => (l, false)
      case Some(r) => (l.(reader := r), true)
    else if (m.mtype == MSG_WINDOW_ACK || m.mtype == MSG_SET_PEER_BW) && |p| >= 4 then
      (l.(windowAck := Rd32(p[..4])), true)
    else if m.mtype == MSG_USER_CONTROL && |p| >= 6 && Rd16(p[..2]) == UCM_PING_REQUEST then
      Send(l, Control(MSG_USER_CONTROL, Be16(UCM_PING_RESPONSE) + Be32(Rd32(p[2..6]))))
    else if m.mtype == MSG_USER_CONTROL && |p| >= 6 && Rd16(p[..2]) == UCM_ACK then
      (l.(peerAcked := Rd32(p[2..6])), true)
    else (l, true)
  }

  function BudgetOf(l: Link): nat {
    if l.budget.Some? then l.budget.value else 0
  }

  /** One message arrived: it is counted, proves the peer alive, may fill the window, and is reacted to. */
  function Receive(l: Link, next: Reader, used: nat, m: Message, now: int): (Link, bool)
    requires l.chunk > 0
  {
    var (a, ok) := MaybeAck(l.(reader := next, received := l.received + used, watch := W.Heard(now, BudgetOf(l))));
    if !ok then (a, false) else React(a, m)
  }

  /** What a read that ends inside a message leaves of the reader, and how many bytes it counted. */
  datatype Cut = Cut(reader: Reader, counted: nat)

  function DrainInbound(l: Link, d: bytes, now: int, u: Cut): (Link, bool)
    requires l.chunk > 0
    decreases |d|
  {
    match ReadMessage(l.reader.states, l.reader.size, d)
    case Starved => (if d == [] then l else l.(reader := u.reader, received := l.received + u.counted), true)
    case Got(states, used, m) =>
      var (n, ok) := Receive(l, l.reader.(states := states), used, m, now);
      ReceiveKeepsChunk(l, l.reader.(states := states), used, m, now);
      if !ok then (n, false) else DrainInbound(n, d[used..], now, u)
  }

  lemma ReceiveKeepsChunk(l: Link, next: Reader, used: nat, m: Message, now: int)
    requires l.chunk > 0
    ensures Receive(l, next, used, m, now).0.chunk == l.chunk
  {
    hide Frame, Put, HandleControl;
  }

  function Probe(l: Link, next: W.Watch, stamp: nat): (Link, bool)
    requires l.chunk > 0
  {
    var counted := l.(watch := l.watch.(pings := l.watch.pings + 1));
    var (n, ok) := Send(counted, Control(MSG_USER_CONTROL, Be16(UCM_PING_REQUEST) + Be32(stamp)));
    (if ok then n.(watch := next) else n, ok)
  }

  /** What happens once the inbound side was drained. */
  function CheckPeer(l: Link, now: int, stamp: nat): (Link, bool)
    requires l.chunk > 0
  {
    if l.budget.None? then (l, true)
    else
      var (next, v) := W.Check(l.watch, l.budget.value, now);
      match v
      case Fine => (l, true)
      case Dead => (l, false)
      case Probed => Probe(l, next, stamp)
  }

  /** Drains what the peer sent, then looks after its liveness; `closed` is the end of the stream. */
  function Maintain(l: Link, d: bytes, closed: bool, now: int, stamp: nat, u: Cut): (Link, bool)
    requires l.chunk > 0
  {
    var (a, ok) := DrainInbound(l, d, now, u);
    DrainKeepsChunk(l, d, now, u);
    if !ok || closed then (a, false) else CheckPeer(a, now, stamp)
  }

  lemma {:induction false} DrainKeepsChunk(l: Link, d: bytes, now: int, u: Cut)
    requires l.chunk > 0
    ensures DrainInbound(l, d, now, u).0.chunk == l.chunk
    decreases |d|
  {
    hide Receive, ReadMessage;
    match ReadMessage(l.reader.states, l.reader.size, d)
    case Starved =>
    case Got(states, used, m) =>
      ReceiveKeepsChunk(l, l.reader.(states := states), used, m, now);
      var (n, ok) := Receive(l, l.reader.(states := states), used, m, now);
      if ok {
        DrainKeepsChunk(n, d[used..], now, u);
      }
  }

  lemma {:induction false} EmittedIds(pid: nat, tags: seq<FlvTag>)
    ensures forall i :: 0 <= i < |EmitTags(pid, tags)| ==> EmitTags(pid, tags)[i].cid < 64
  {
    if tags != [] {
      EmittedIds(pid, tags[1..]);
    }
  }

  function Write(l: Link, data: bytes): (Link, bool)
    requires l.chunk > 0
  {
    var fed := Feed(l.parser, data);
    var n := l.(parser := fed.parser);
    if fed.rejected then (n, false)
    else
      EmittedIds(l.pid, fed.tags);
      SendAll(n, EmitTags(l.pid, fed.tags))
  }

  class RtmpTransport {
    const sock: ByteSink
    const reader: ChunkReader
    const flv: FlvTagParser
    const chunk: nat
    const pid: nat
    const budget: Option<nat>
    var bytesWritten: nat
    var windowAck: nat
    var lastAckAt: nat
    var peerAcked: nat
    var lastInbound: int
    var pings: nat
    var nextProbeAt: int
    ghost var sent: seq<OutMessage>

    ghost function View(): Link
      reads this, sock, reader, flv
    {
      Link(sock.View(), chunk, pid, sent, bytesWritten, reader.View(), reader.bytesRead, windowAck, lastAckAt,
           peerAcked, flv.View(), budget, W.Watch(lastInbound, pings, nextProbeAt))
    }

    /** A published connection: the handshake is over and the stream id known. */
    constructor (sock: ByteSink, reader: ChunkReader, chunk: nat, pid: nat, budget: Option<nat>, now: int)
      ensures this.sock == sock && this.reader == reader && fresh(flv)
      ensures View() == Link(sock.View(), chunk, pid, [], 0, reader.View(), reader.bytesRead, 0, 0, 0, FRESH, budget,
                             W.Watch(now, 0, now))
    {
      this.sock, this.reader, this.chunk, this.pid, this.budget := sock, reader, chunk, pid, budget;
      flv := new FlvTagParser();
      bytesWritten, windowAck, lastAckAt, peerAcked := 0, 0, 0, 0;
      lastInbound, pings, nextProbeAt := now, 0, now;
      sent := [];
    }

    method SendMessage(m: OutMessage) returns (ok: bool)
      requires chunk > 0 && m.cid < 64
      modifies this`bytesWritten, this`sent, sock
      ensures (View(), ok) == Send(old(View()), m)
    {
      hide Frame, Put;
      var out := FrameMessage(m, chunk);
      bytesWritten := (bytesWritten + |out|) % TWO_64;
      ok := sock.WriteAll(out);
      if ok {
        sent := sent + [m];
      }
    }

    method NoteInbound(now: int)
      modifies this`lastInbound, this`pings, this`nextProbeAt
      ensures View() == old(View()).(watch := W.Heard(now, BudgetOf(old(View()))))
    {
      lastInbound, pings := now, 0;
      nextProbeAt := now + (if budget.Some? then budget.value else 0) / 4;
    }

    method MaybeSendAck() returns (ok: bool)
      requires chunk > 0
      modifies this, sock
      ensures (View(), ok) == MaybeAck(old(View()))
    {
      hide Frame, Put, Send;
      var received := reader.bytesRead;
      if windowAck != 0 && received >= lastAckAt + windowAck {
        ok := SendMessage(Control(MSG_ACK, Be32(received % TWO_32)));
        if ok {
          lastAckAt := received;
        }
        return;
      }
      return true;
    }

    /** Reacts to one protocol-control message from the server. */
    method ReactTo(m: Message) returns (ok: bool)
      requires chunk > 0
      modifies this, sock, reader
      ensures (View(), ok) == React(old(View()), m)
    {
      hide Frame, Put, Send;
      var p := m.payload;
      if m.mtype == MSG_SET_CHUNK_SIZE && |p| >= 4 {
        ok := reader.SetChunkSize(Rd32(p[..4]));
        return;
      } else if m.mtype == MSG_ABORT && |p| >= 4 {
        reader.Abort(Rd32(p[..4]));
      } else if m.mtype == MSG_WINDOW_ACK && |p| >= 4 {
        windowAck := Rd32(p[..4]);
      } else if m.mtype == MSG_SET_PEER_BW && |p| >= 4 {
        windowAck := Rd32(p[..4]);
      } else if m.mtype == MSG_USER_CONTROL && |p| >= 2 {
        var event := Rd16(p[..2]);
        if event == UCM_PING_REQUEST && |p| >= 6 {
          ok := SendMessage(Control(MSG_USER_CONTROL, Be16(UCM_PING_RESPONSE) + Be32(Rd32(p[2..6]))));
          return;
        } else if event == UCM_ACK && |p| >= 6 {
          peerAcked := Rd32(p[2..6]);
        }
      }
      return true;
    }

    method ReceiveOne(m: Message, now: int, ghost before: Link, ghost used: nat) returns (ok: bool)
      requires chunk > 0
      requires View() == before.(reader := reader.View(), received := before.received + used)
      modifies this, sock, reader
      ensures (View(), ok) == Receive(before, old(reader.View()), used, m, now)
    {
      hide MaybeAck, React;
      NoteInbound(now);
      ok := MaybeSendAck();
      if ok {
        ok := ReactTo(m);
      }
    }

    /** Drains whatever the server has sent; a read that ends inside a message ends the drain as well. */
    method DrainSocket(input: ByteSource, now: int) returns (ok: bool, ghost u: Cut)
      requires chunk > 0 && input.Valid()
      modifies this, sock, reader, input
      ensures (View(), ok) == DrainInbound(old(View()), old(input.Left()), now, u)
    {
      hide ReadMessage, Receive;
      ghost var start, all := View(), input.Left();
      while true
        invariant input.Valid()
        invariant forall u :: DrainInbound(View(), input.Left(), now, u) == DrainInbound(start, all, now, u)
        decreases |input.data| - input.pos
      {
        ghost var l, d := View(), input.Left();
        ghost var got := ReadMessage(l.reader.states, l.reader.size, d);
        var r := reader.ReadMsg(input);
        if r.Err? {
          u := Cut(reader.View(), reader.bytesRead - l.received);
          return true, u;
        }
        assert input.Left() == d[got.used..];
        ReceiveKeepsChunk(l, l.reader.(states := got.states), got.used, got.msg, now);
        ok := ReceiveOne(r.value, now, l, got.used);
        if !ok {
          u := Cut(reader.View(), 0);
          return false, u;
        }
      }
    }

    method ProbePeer(stamp: nat, now: int) returns (ok: bool)
      requires chunk > 0 && budget.Some?
      modifies this, sock
      ensures var l := old(View());
        (View(), ok) == Probe(l, W.Watch(l.watch.lastInbound, l.watch.pings + 1, now + W.Quarter(budget.value)), stamp)
    {
      hide Frame, Put, Send;
      pings := pings + 1;
      ok := SendMessage(Control(MSG_USER_CONTROL, Be16(UCM_PING_REQUEST) + Be32(stamp)));
      if ok {
        nextProbeAt := now + budget.value / 4;
      }
    }

    method WatchPeer(now: int, stamp: nat) returns (ok: bool)
      requires chunk > 0
      modifies this, sock
      ensures (View(), ok) == CheckPeer(old(View()), now, stamp)
    {
      hide Probe;
      if budget.None? {
        return true;
      }
      var silent := now - lastInbound;
      if silent < budget.value / 4 {
        return true;
      }
      if pings >= W.MAX_UNANSWERED_PINGS && silent >= budget.value {
        return false;
      }
      if pings < W.MAX_UNANSWERED_PINGS && now >= nextProbeAt {
        ok := ProbePeer(stamp, now);
        return;
      }
      return true;
    }

    method MaintainOnce(input: ByteSource, closed: bool, now: int, stamp: nat) returns (ok: bool, ghost u: Cut)
      requires chunk > 0 && input.Valid()
      modifies this, sock, reader, input
      ensures (View(), ok) == Maintain(old(View()), old(input.Left()), closed, now, stamp, u)
    {
      hide DrainInbound, CheckPeer;
      ghost var l, d := View(), input.Left();
      ok, u := DrainSocket(input, now);
      DrainKeepsChunk(l, d, now, u);
      if !ok || closed {
        return false, u;
      }
      ok := WatchPeer(now, stamp);
    }

    /** The FLV byte stream goes in here: each tag it completes is framed and sent. */
    method WriteBytes(data: bytes) returns (ok: bool)
      requires chunk > 0
      modifies this, sock, flv
      ensures (View(), ok) == Write(old(View()), data)
    {
      hide Feed, EmitTag, Send;
      var r := flv.FeedBytes(data);
      if r.Err? {
        return false;
      }
      var tags := r.value;
      EmittedIds(pid, tags);
      ghost var whole := SendAll(View(), EmitTags(pid, tags));
      for i := 0 to |tags|
        invariant forall k :: 0 <= k < |EmitTags(pid, tags[i..])| ==> EmitTags(pid, tags[i..])[k].cid < 64
        invariant SendAll(View(), EmitTags(pid, tags[i..])) == whole
      {
        assert tags[i..][1..] == tags[i + 1..];
        EmittedIds(pid, tags[i + 1..]);
        var out := EmitTag(pid, tags[i]);
        OneEmitted(pid, tags[i]);
        SendSplit(View(), out, EmitTags(pid, tags[i + 1..]));
        if out != [] {
          var sentOk := SendMessage(out[0]);
          if !sentOk {
            return false;
          }
        }
      }
      return true;
    }
  }

  lemma OneEmitted(pid: nat, t: FlvTag)
    ensures |EmitTag(pid, t)| <= 1 && (EmitTag(pid, t) != [] ==> EmitTag(pid, t)[0].cid < 64)
  {
  }

  function SendFirst(l: Link, m: OutMessage, rest: seq<OutMessage>): (Link, bool)
    requires l.chunk > 0 && m.cid < 64 && forall i :: 0 <= i < |rest| ==> rest[i].cid < 64
  {
    var (n, ok) := Send(l, m);
    if !ok then (n, false) else SendAll(n, rest)
  }

  lemma SendSplit(l: Link, one: seq<OutMessage>, rest: seq<OutMessage>)
    requires l.chunk > 0 && |one| <= 1 && (one != [] ==> one[0].cid < 64)
    requires forall i :: 0 <= i < |rest| ==> rest[i].cid < 64
    ensures one == [] ==> SendAll(l, one + rest) == SendAll(l, rest)
    ensures one != [] ==> SendAll(l, one + rest) == SendFirst(l, one[0], rest)
  {
    hide Send, Frame;
    if one == [] {
      assert one + rest == rest;
    } else {
      assert (one + rest)[1..] == rest && (one + rest)[0] == one[0];
    }
  }
}
