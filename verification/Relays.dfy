/**
  What a publishing connection relays of the FLV stream written to it: its video, audio and metadata
  tags, one message each and in order, whatever else is sent in between.
 */
module Relays {
  import opened Bytes
  import F = FlvTags
  import opened Mux
  import opened Timeline
  import opened Chunks
  import opened Publish
  import opened Transports
  import opened TransportRuns
  import A = Amf0
  import W = Watchdog
  import Flv

  // ---------------------------------------------------------------------------------
  // What is to be relayed
  // ---------------------------------------------------------------------------------

  /** A message of one of the three kinds that carry a stream. */
  predicate IsData(mtype: byte) {
    mtype == MSG_AUDIO || mtype == MSG_VIDEO || mtype == MSG_AMF0_DATA
  }

  function DataOne(m: OutMessage): seq<OutMessage> {
    if IsData(m.msg.mtype) then [m] else []
  }

  function DataOf(ms: seq<OutMessage>): seq<OutMessage> {
    if ms == [] then [] else DataOne(ms[0]) + DataOf(ms[1..])
  }

  /** Metadata that begins with a string and has something behind it. */
  predicate NamedScript(t: F.FlvTag) {
    t.mtype == Flv.TAG_SCRIPT && |t.body| > 3 && t.body[0] == A.TYPE_STRING && |t.body| > 3 + Rd16(t.body[1..3])
  }

  predicate IsRelayed(t: F.FlvTag) {
    t.mtype == Flv.TAG_VIDEO || t.mtype == Flv.TAG_AUDIO || NamedScript(t)
  }

  function RelayedOne(t: F.FlvTag): seq<F.FlvTag> {
    if IsRelayed(t) then [t] else []
  }

  function RelayedOf(tags: seq<F.FlvTag>): seq<F.FlvTag> {
    if tags == [] then [] else RelayedOne(tags[0]) + RelayedOf(tags[1..])
  }

  /**
    The message for a tag: media as it is, and metadata behind the two strings that tell the server to
    keep it, with the values that follow the tag's own first string.
   */
  predicate Relays(t: F.FlvTag, m: Message) {
    && m.ts == t.ts
    && if t.mtype == Flv.TAG_VIDEO then m.mtype == 9 && m.payload == t.body
       else if t.mtype == Flv.TAG_AUDIO then m.mtype == 8 && m.payload == t.body
       else
         && m.mtype == 18 && A.ReadAll(t.body, 0) != []
         && A.ReadAll(m.payload, 0) ==
            [A.Str(Ascii("@setDataFrame")), A.Str(Ascii("onMetaData"))] + A.ReadAll(t.body, 0)[1..]
  }

  /** One message for each tag, on the connection's message stream. */
  ghost predicate AllRelayed(tags: seq<F.FlvTag>, ms: seq<OutMessage>, pid: nat) {
    |ms| == |tags| && forall i :: 0 <= i < |tags| ==> Relays(tags[i], ms[i].msg) && ms[i].sid == pid
  }

  // ---------------------------------------------------------------------------------
  // One tag
  // ---------------------------------------------------------------------------------

  /** A message of metadata reads as the two strings and then as what was put behind them. */
  lemma FrameReads(rest: bytes)
    ensures A.ReadAll(SET_DATA_FRAME + rest, 0) ==
      [A.Str(Ascii("@setDataFrame")), A.Str(Ascii("onMetaData"))] + A.ReadAll(rest, 0)
  {
    hide Ascii, A.Encode, A.ReadValue;
    var a, b := A.StringItem(Ascii("@setDataFrame")), A.StringItem(Ascii("onMetaData"));
    var d, at := SET_DATA_FRAME + rest, |A.Encode(a)|;
    TextsFit();
    assert d[0..] == A.Encode(a) + (A.Encode(b) + rest);
    A.ItemBack(d, 0, a, A.Encode(b) + rest);
    A.ItemBack(d, at, b, rest);
    assert rest[0..] == rest;
    A.AllMoves(d, |SET_DATA_FRAME|, rest, 0);
    assert A.ReadAll(d, at) == [A.Meaning(b)] + A.ReadAll(d, |SET_DATA_FRAME|);
  }

  lemma TextsFit()
    ensures A.Fits(A.StringItem(Ascii("@setDataFrame"))) && A.Fits(A.StringItem(Ascii("onMetaData")))
  {
  }

  lemma TextFirst(t: F.FlvTag)
    requires NamedScript(t)
    ensures var rest := 3 + Rd16(t.body[1..3]);
      A.ReadValue(t.body, 0) == Some(A.Parsed(A.Str(t.body[3..rest]), rest))
  {
    hide Rd32;
  }

  /** The tag's own first string and what follows it. */
  lemma ScriptReads(t: F.FlvTag)
    requires NamedScript(t)
    ensures var rest := 3 + Rd16(t.body[1..3]);
      A.ReadAll(t.body, 0) != [] && A.ReadAll(t.body, 0)[1..] == A.ReadAll(t.body[rest..], 0)
  {
    hide A.ReadValue;
    TextFirst(t);
    var rest := 3 + Rd16(t.body[1..3]);
    A.AllMoves(t.body, rest, t.body[rest..], 0);
  }

  lemma TagRelays(pid: nat, t: F.FlvTag)
    ensures IsRelayed(t) <==> EmitTag(pid, t) != []
    ensures IsRelayed(t) ==> AllRelayed([t], EmitTag(pid, t), pid) && DataOf(EmitTag(pid, t)) == EmitTag(pid, t)
  {
    hide SET_DATA_FRAME, A.ReadAll, Ascii;
    if NamedScript(t) {
      ScriptReads(t);
      FrameReads(t.body[3 + Rd16(t.body[1..3])..]);
    }
    if EmitTag(pid, t) != [] {
      OneData(EmitTag(pid, t)[0]);
      assert EmitTag(pid, t) == [EmitTag(pid, t)[0]];
    }
  }

  lemma OneData(m: OutMessage)
    ensures DataOf([m]) == if IsData(m.msg.mtype) then [m] else []
  {
    assert [m][1..] == [];
  }

  lemma {:induction false} DataAppend(a: seq<OutMessage>, b: seq<OutMessage>)
    ensures DataOf(a + b) == DataOf(a) + DataOf(b)
  {
    hide DataOne;
    if a == [] {
      assert a + b == b;
    } else {
      assert (a + b)[1..] == a[1..] + b;
      DataAppend(a[1..], b);
    }
  }

  lemma {:induction false} RelayedAppend(a: seq<F.FlvTag>, b: seq<F.FlvTag>)
    ensures RelayedOf(a + b) == RelayedOf(a) + RelayedOf(b)
  {
    hide RelayedOne;
    if a == [] {
      assert a + b == b;
    } else {
      assert (a + b)[1..] == a[1..] + b;
      RelayedAppend(a[1..], b);
    }
  }

  lemma {:induction false} TagsRelay(pid: nat, tags: seq<F.FlvTag>)
    ensures AllRelayed(RelayedOf(tags), EmitTags(pid, tags), pid) && DataOf(EmitTags(pid, tags)) == EmitTags(pid, tags)
  {
    hide EmitTag, Relays, IsRelayed;
    if tags != [] {
      var one, rest := EmitTag(pid, tags[0]), EmitTags(pid, tags[1..]);
      TagRelays(pid, tags[0]);
      TagsRelay(pid, tags[1..]);
      DataAppend(one, rest);
      if one == [] {
        assert one + rest == rest && [] + RelayedOf(tags[1..]) == RelayedOf(tags[1..]);
      }
    }
  }

  // ---------------------------------------------------------------------------------
  // Runs
  // ---------------------------------------------------------------------------------

  /** While the socket lives, the bytes counted, modulo 2^64, are the bytes it took. */
  predicate BytesCounted(l: Link, n: Link) {
    && |l.sink.log| <= |n.sink.log| && (l.sink.dead ==> n.sink.dead)
    && (!n.sink.dead ==> (n.bytesWritten - l.bytesWritten - (|n.sink.log| - |l.sink.log|)) % TWO_64 == 0)
  }

  lemma CountedTwice(l: Link, n: Link, o: Link)
    requires BytesCounted(l, n) && BytesCounted(n, o)
    ensures BytesCounted(l, o)
  {
    if !o.sink.dead {
      SumOfMultiples(n.bytesWritten - l.bytesWritten - (|n.sink.log| - |l.sink.log|),
                     o.bytesWritten - n.bytesWritten - (|o.sink.log| - |n.sink.log|));
    }
  }

  lemma SumOfMultiples(a: int, b: int)
    requires a % TWO_64 == 0 && b % TWO_64 == 0
    ensures (a + b) % TWO_64 == 0
  {
  }

  /** From `l` to `n` the data messages sent are those of `tags`. */
  ghost predicate Relayed(l: Link, n: Link, tags: seq<F.FlvTag>) {
    && l.sent <= n.sent && n.pid == l.pid && n.chunk == l.chunk && BytesCounted(l, n)
    && AllRelayed(RelayedOf(tags), DataOf(n.sent[|l.sent|..]), l.pid)
  }

  lemma AllRelayedJoin(a: seq<F.FlvTag>, x: seq<OutMessage>, b: seq<F.FlvTag>, y: seq<OutMessage>, pid: nat)
    requires AllRelayed(a, x, pid) && AllRelayed(b, y, pid)
    ensures AllRelayed(a + b, x + y, pid)
  {
    hide Relays;
  }

  lemma RelayedTwice(l: Link, n: Link, o: Link, a: seq<F.FlvTag>, b: seq<F.FlvTag>, all: seq<F.FlvTag>)
    requires Relayed(l, n, a) && Relayed(n, o, b) && all == a + b
    ensures Relayed(l, o, all)
  {
    hide AllRelayed, RelayedOf, DataOf, BytesCounted;
    CountedTwice(l, n, o);
    RelayedAppend(a, b);
    var x, y := n.sent[|l.sent|..], o.sent[|n.sent|..];
    assert o.sent[|l.sent|..] == x + y;
    DataAppend(x, y);
    AllRelayedJoin(RelayedOf(a), DataOf(x), RelayedOf(b), DataOf(y), l.pid);
  }

  /** Nothing but control messages. */
  lemma NothingRelayed(l: Link, n: Link, more: seq<OutMessage>)
    requires n.sent == l.sent + more && n.pid == l.pid && n.chunk == l.chunk && BytesCounted(l, n)
    requires forall i :: 0 <= i < |more| ==> !IsData(more[i].msg.mtype)
    ensures Relayed(l, n, [])
  {
    NoData(more);
    assert n.sent[|l.sent|..] == more;
  }

  lemma {:induction false} NoData(ms: seq<OutMessage>)
    requires forall i :: 0 <= i < |ms| ==> !IsData(ms[i].msg.mtype)
    ensures DataOf(ms) == []
  {
    if ms != [] {
      assert forall i :: 0 <= i < |ms[1..]| ==> ms[1..][i] == ms[i + 1];
      NoData(ms[1..]);
    }
  }

  lemma ControlRelays(l: Link, m: OutMessage)
    requires l.chunk > 0 && m.cid < 64 && !IsData(m.msg.mtype)
    ensures Relayed(l, Send(l, m).0, [])
  {
    hide Frame, Put, BytesCounted;
    SendBytes(l, m);
    assert l.sent == l.sent + [];
    NothingRelayed(l, Send(l, m).0, if Send(l, m).1 then [m] else []);
  }

  lemma SendBytes(l: Link, m: OutMessage)
    requires l.chunk > 0 && m.cid < 64
    ensures BytesCounted(l, Send(l, m).0)
  {
    hide Frame;
    var size := |Frame(m, l.chunk)|;
    Wraps(l.bytesWritten, size);
  }

  lemma Wraps(before: nat, size: nat)
    ensures ((before + size) % TWO_64 - before - size) % TWO_64 == 0
  {
    var total := before + size;
    assert total % TWO_64 - total == -(total / TWO_64) * TWO_64;
    Multiple64(-(total / TWO_64));
  }

  lemma Multiple64(k: int)
    ensures k * TWO_64 % TWO_64 == 0
  {
  }

  lemma SameSent(l: Link, n: Link)
    requires n.sent == l.sent && n.pid == l.pid && n.chunk == l.chunk
    requires n.sink == l.sink && n.bytesWritten == l.bytesWritten
    ensures Relayed(l, n, [])
  {
    assert n.sent == l.sent + [];
    NothingRelayed(l, n, []);
  }

  lemma ReceiveRelays(l: Link, next: Reader, used: nat, m: Message, now: int)
    requires l.chunk > 0
    ensures Relayed(l, Receive(l, next, used, m, now).0, [])
  {
    hide Send, HandleControl, Relayed;
    var a := l.(reader := next, received := l.received + used, watch := W.Heard(now, BudgetOf(l)));
    SameSent(l, a);
    AckRelays(a);
    var b := MaybeAck(a).0;
    RelayedTwice(l, a, b, [], [], []);
    RelaysKeep(l, b, []);
    ReactRelays(b, m);
    RelayedTwice(l, b, React(b, m).0, [], [], []);
  }

  lemma RelaysKeep(l: Link, n: Link, tags: seq<F.FlvTag>)
    requires Relayed(l, n, tags)
    ensures n.pid == l.pid && n.chunk == l.chunk
  {
  }

  lemma AckRelays(l: Link)
    requires l.chunk > 0
    ensures Relayed(l, MaybeAck(l).0, [])
  {
    hide Send, Relayed;
    var m := Control(MSG_ACK, Be32(l.received % TWO_32));
    ControlRelays(l, m);
    SameSent(l, l);
    var n := Send(l, m).0;
    RelaysKeep(l, n, []);
    SameSent(n, n.(lastAckAt := l.received));
    RelayedTwice(l, n, n.(lastAckAt := l.received), [], [], []);
  }

  lemma ReactRelays(l: Link, m: Message)
    requires l.chunk > 0
    ensures Relayed(l, React(l, m).0, [])
  {
    hide Send, HandleControl, Relayed;
    SameSent(l, React(l, m).0.(sent := l.sent, pid := l.pid, chunk := l.chunk, sink := l.sink,
                               bytesWritten := l.bytesWritten));
    if |m.payload| >= 6 {
      ControlRelays(l, Control(MSG_USER_CONTROL, Be16(UCM_PING_RESPONSE) + Be32(Rd32(m.payload[2..6]))));
    }
  }

  lemma {:induction false} DrainRelays(l: Link, d: bytes, now: int, u: Cut)
    requires l.chunk > 0
    ensures Relayed(l, DrainInbound(l, d, now, u).0, [])
    decreases |d|
  {
    hide ReadMessage, Receive, Relayed;
    match ReadMessage(l.reader.states, l.reader.size, d)
    case Starved => SameSent(l, DrainInbound(l, d, now, u).0);
    case Got(states, used, m) =>
      var (n, ok) := Receive(l, l.reader.(states := states), used, m, now);
      ReceiveRelays(l, l.reader.(states := states), used, m, now);
      if ok {
        ReceiveKeepsChunk(l, l.reader.(states := states), used, m, now);
        DrainRelays(n, d[used..], now, u);
        RelayedTwice(l, n, DrainInbound(n, d[used..], now, u).0, [], [], []);
      }
  }

  lemma CheckRelays(l: Link, now: int, stamp: nat)
    requires l.chunk > 0
    ensures Relayed(l, CheckPeer(l, now, stamp).0, [])
  {
    hide Send, W.Check, Relayed;
    SameSent(l, l);
    var counted := l.(watch := l.watch.(pings := l.watch.pings + 1));
    var m := Control(MSG_USER_CONTROL, Be16(UCM_PING_REQUEST) + Be32(stamp));
    SameSent(l, counted);
    ControlRelays(counted, m);
    var n := Send(counted, m).0;
    RelaysKeep(counted, n, []);
    RelayedTwice(l, counted, n, [], [], []);
    SameSent(n, n.(watch := CheckPeer(l, now, stamp).0.watch));
    RelayedTwice(l, n, n.(watch := CheckPeer(l, now, stamp).0.watch), [], [], []);
  }

  lemma {:induction false} SendAllSends(l: Link, ms: seq<OutMessage>)
    requires l.chunk > 0 && (forall i :: 0 <= i < |ms| ==> ms[i].cid < 64) && SendAll(l, ms).1
    ensures var n := SendAll(l, ms).0;
      n.sent == l.sent + ms && n.pid == l.pid && n.chunk == l.chunk && BytesCounted(l, n)
    decreases |ms|
  {
    hide Send, BytesCounted;
    if ms == [] {
      NoBytes(l);
      assert l.sent + [] == l.sent;
    } else {
      SendSends(l, ms[0]);
      SendBytes(l, ms[0]);
      var n := Send(l, ms[0]).0;
      SendAllSends(n, ms[1..]);
      CountedTwice(l, n, SendAll(n, ms[1..]).0);
      assert l.sent + [ms[0]] + ms[1..] == l.sent + ms;
    }
  }

  lemma NoBytes(l: Link)
    ensures BytesCounted(l, l)
  {
  }

  lemma SendSends(l: Link, m: OutMessage)
    requires l.chunk > 0 && m.cid < 64
    ensures var (n, ok) := Send(l, m);
      n.pid == l.pid && n.chunk == l.chunk && n.parser == l.parser && (ok ==> n.sent == l.sent + [m])
  {
    hide Frame, Put;
  }

  lemma WriteRelays(l: Link, data: bytes)
    requires l.chunk > 0 && Write(l, data).1
    ensures Relayed(l, Write(l, data).0, F.Feed(l.parser, data).tags)
    ensures Write(l, data).0.parser == F.Feed(l.parser, data).parser
  {
    hide F.Feed, SendAll, EmitTags;
    var fed := F.Feed(l.parser, data);
    var n := l.(parser := fed.parser);
    EmittedIds(l.pid, fed.tags);
    TagsRelay(l.pid, fed.tags);
    SendAllSends(n, EmitTags(l.pid, fed.tags));
    SendAllParser(n, EmitTags(l.pid, fed.tags));
    assert (l.sent + EmitTags(l.pid, fed.tags))[|l.sent|..] == EmitTags(l.pid, fed.tags);
  }

  lemma {:induction false} SendAllParser(l: Link, ms: seq<OutMessage>)
    requires l.chunk > 0 && forall i :: 0 <= i < |ms| ==> ms[i].cid < 64
    ensures SendAll(l, ms).0.parser == l.parser
    decreases |ms|
  {
    hide Send;
    if ms != [] {
      SendSends(l, ms[0]);
      if Send(l, ms[0]).1 {
        SendAllParser(Send(l, ms[0]).0, ms[1..]);
      }
    }
  }

  lemma {:induction false} DrainParser(l: Link, d: bytes, now: int, u: Cut)
    requires l.chunk > 0
    ensures DrainInbound(l, d, now, u).0.parser == l.parser
    decreases |d|
  {
    hide ReadMessage, Receive;
    match ReadMessage(l.reader.states, l.reader.size, d)
    case Starved =>
    case Got(states, used, m) =>
      ReceiveParser(l, l.reader.(states := states), used, m, now);
      ReceiveKeepsChunk(l, l.reader.(states := states), used, m, now);
      var (n, ok) := Receive(l, l.reader.(states := states), used, m, now);
      if ok {
        DrainParser(n, d[used..], now, u);
      }
  }

  lemma ReceiveParser(l: Link, next: Reader, used: nat, m: Message, now: int)
    requires l.chunk > 0
    ensures Receive(l, next, used, m, now).0.parser == l.parser
  {
    hide Frame, Put, HandleControl;
  }

  lemma CheckParser(l: Link, now: int, stamp: nat)
    requires l.chunk > 0
    ensures CheckPeer(l, now, stamp).0.parser == l.parser
  {
    hide Frame, Put, W.Check;
  }

  function FedBy(p: F.Parser, s: Step): F.Fed {
    if s.WriteStep? then F.Feed(p, s.data) else F.Fed([], p, false)
  }

  lemma StepRelays(l: Link, s: Step)
    requires l.chunk > 0 && Do(l, s).1
    ensures Relayed(l, Do(l, s).0, FedBy(l.parser, s).tags) && Do(l, s).0.parser == FedBy(l.parser, s).parser
  {
    hide F.Feed, Write, DrainInbound, CheckPeer, Relayed;
    match s
    case WriteStep(data) => WriteRelays(l, data);
    case MaintainStep(input, closed, now, stamp, u) =>
      DrainRelays(l, input, now, u);
      DrainParser(l, input, now, u);
      var a := DrainInbound(l, input, now, u).0;
      RelaysKeep(l, a, []);
      CheckRelays(a, now, stamp);
      CheckParser(a, now, stamp);
      RelayedTwice(l, a, CheckPeer(a, now, stamp).0, [], [], []);
  }

  lemma {:induction false} RunRelays(l: Link, steps: seq<Step>)
    requires l.chunk > 0 && Succeeds(l, steps)
    ensures Relayed(l, DoAll(l, steps), F.FeedAll(l.parser, Pieces(steps)).tags)
    decreases |steps|
  {
    hide F.Feed, Do, Relayed;
    if steps == [] {
      SameSent(l, l);
    } else {
      KeepsChunk(l, steps[0]);
      var n := Do(l, steps[0]).0;
      StepRelays(l, steps[0]);
      RelaysKeep(l, n, FedBy(l.parser, steps[0]).tags);
      PiecesStep(l.parser, steps);
      RunRelays(n, steps[1..]);
      RelayedTwice(l, n, DoAll(n, steps[1..]), FedBy(l.parser, steps[0]).tags,
                   F.FeedAll(n.parser, Pieces(steps[1..])).tags, F.FeedAll(l.parser, Pieces(steps)).tags);
    }
  }

  /**
    Over any successful run of a fresh connection a reader takes from the wire exactly what was sent, and
    the data messages among that are, one by one and in order, those of the video, audio and metadata
    tags of the FLV stream that was written, all on the connection's message stream. The bytes counted are
    those of the wire.
   */
  lemma TagsAreRelayed(l: Link, steps: seq<Step>, r: Reader)
    requires l.chunk > 0 && l.pid < TWO_32 && l.sent == [] && l.parser == F.FRESH && Succeeds(l, steps)
    requires !DoAll(l, steps).sink.dead && r.size == Min(l.chunk, MAX_CHUNK_SIZE)
    requires AllCarried(TagsOf(Flat(Pieces(steps))))
    ensures |l.sink.log| <= |DoAll(l, steps).sink.log|
    ensures var n := DoAll(l, steps);
      var wire := n.sink.log[|l.sink.log|..];
      && AllSendable(n.sent) && n.chunk == l.chunk && wire == FrameAll(n.sent, l.chunk)
      && Pump(r, wire) == Pumped(Plain(n.sent), |wire|)
      && AllRelayed(RelayedOf(TagsOf(Flat(Pieces(steps)))), DataOf(n.sent), l.pid)
      && (n.bytesWritten - l.bytesWritten - |wire|) % TWO_64 == 0
  {
    hide DoAll, Succeeds, F.Drain, F.StepOf, Pump, Carried, Relays, IsRelayed, RelayedOf, DataOf;
    FreshWaits();
    F.IncrementalParsing(F.FRESH, Pieces(steps));
    var past := l.sink.log;
    assert past + FrameAll([], l.chunk) == past;
    RunCarries(l, past, steps);
    RunRelays(l, steps);
    var n := DoAll(l, steps);
    assert n.sent[0..] == n.sent;
    FramedRunRoundTrip(n.sent, n.chunk, r);
    assert n.sink.log[|past|..] == FrameAll(n.sent, n.chunk);
  }
}
