/**
  Runs of a connection: media written in any pieces, interleaved with health checks that read,
  acknowledge, answer pings and probe, reaches ingest as if nothing else had been sent.
 */
module TransportRuns {
  import opened Bytes
  import opened FlvTags
  import opened Mux
  import opened Timeline
  import opened Chunks
  import opened Publish
  import opened Transports
  import W = Watchdog
  import Flv

  datatype Step = WriteStep(data: bytes) | MaintainStep(input: bytes, closed: bool, now: int, stamp: nat, u: Cut)

  function Do(l: Link, s: Step): (Link, bool)
    requires l.chunk > 0
  {
    match s
    case WriteStep(data) => Write(l, data)
    case MaintainStep(input, closed, now, stamp, u) => Maintain(l, input, closed, now, stamp, u)
  }

  // ---------------------------------------------------------------------------------
  // The wire holds whole frames of the sent messages
  // ---------------------------------------------------------------------------------

  /** A message this side sends once published: no command, and no other chunk size. */
  predicate Steady(m: OutMessage) {
    Sendable(m) && !IsSetChunkSize(m.msg) && m.msg.mtype != MSG_AMF0_COMMAND
  }

  ghost predicate AllSteady(ms: seq<OutMessage>) {
    forall i :: 0 <= i < |ms| ==> Steady(ms[i])
  }

  lemma {:induction false} FrameSnoc(ms: seq<OutMessage>, m: OutMessage, size: nat)
    requires size > 0 && AllSteady(ms) && Steady(m)
    ensures AllSendable(ms) && AllSendable(ms + [m])
    ensures FrameAll(ms + [m], size) == FrameAll(ms, size) + Frame(m, size)
    decreases |ms|
  {
    hide Frame, Sendable;
    assert AllSendable(ms) && AllSendable(ms + [m]);
    if ms == [] {
      assert ([] + [m])[1..] == [];
      assert ms + [m] == [m];
    } else {
      assert (ms + [m])[1..] == ms[1..] + [m];
      FrameSnoc(ms[1..], m, size);
    }
  }

  /** While the socket lives, everything since `past` is the frames of what was sent. */
  ghost predicate Framed(l: Link, past: bytes) {
    l.chunk > 0 && l.pid < TWO_32 && AllSteady(l.sent) &&
    (!l.sink.dead ==> AllSendable(l.sent) && l.sink.log == past + FrameAll(l.sent, l.chunk))
  }

  lemma SendFramed(l: Link, past: bytes, m: OutMessage)
    requires Framed(l, past) && Steady(m)
    ensures var (n, ok) := Send(l, m);
      && Framed(n, past) && ok == !n.sink.dead
      && n == l.(sink := n.sink, bytesWritten := n.bytesWritten, sent := if ok then l.sent + [m] else l.sent)
  {
    hide Frame, FrameAll, IsSetChunkSize;
    FrameSnoc(l.sent, m, l.chunk);
    if !l.sink.dead {
      var all, one := FrameAll(l.sent, l.chunk), Frame(m, l.chunk);
      assert past + (all + one) == past + all + one;
    }
  }

  lemma IngestSnoc(ms: seq<OutMessage>, m: OutMessage)
    ensures Ingest(Plain(ms + [m])) == Ingest(Plain(ms)) + IngestOne(m.msg)
  {
    hide IngestOne;
    assert Plain(ms + [m]) == Plain(ms) + [m.msg];
    IngestAppend(Plain(ms), [m.msg]);
    assert [m.msg][1..] == [];
  }

  /** What a step leaves of the connection, media aside. */
  ghost predicate Carries(l: Link, n: Link, past: bytes, media: seq<Flv.Decoded>) {
    && Framed(n, past) && n.chunk == l.chunk && n.pid == l.pid
    && Ingest(Plain(n.sent)) == Ingest(Plain(l.sent)) + media
  }

  lemma CarriesTwice(l: Link, n: Link, o: Link, past: bytes, a: seq<Flv.Decoded>, b: seq<Flv.Decoded>)
    requires Carries(l, n, past, a) && Carries(n, o, past, b)
    ensures Carries(l, o, past, a + b)
  {
    hide Framed;
  }

  lemma CarriesNothing(l: Link, n: Link, past: bytes)
    requires Framed(l, past) && n.sink == l.sink && n.sent == l.sent && n.chunk == l.chunk && n.pid == l.pid
    ensures Carries(l, n, past, [])
  {
    assert Ingest(Plain(l.sent)) + [] == Ingest(Plain(l.sent));
  }

  lemma ControlSteady(mtype: byte, payload: bytes)
    requires (mtype == MSG_ACK || mtype == MSG_USER_CONTROL) && 0 < |payload| < TWO_24
    ensures Steady(Control(mtype, payload)) && IngestOne(Control(mtype, payload).msg) == []
  {
  }

  lemma SendCarries(l: Link, past: bytes, m: OutMessage)
    requires Framed(l, past) && Steady(m)
    ensures Carries(l, Send(l, m).0, past, if Send(l, m).1 then IngestOne(m.msg) else [])
    ensures Send(l, m).0.parser == l.parser
  {
    hide Framed, Steady, Send, IngestOne;
    SendFramed(l, past, m);
    IngestSnoc(l.sent, m);
    assert Ingest(Plain(l.sent)) + [] == Ingest(Plain(l.sent));
  }

  lemma ControlCarries(l: Link, past: bytes, mtype: byte, payload: bytes)
    requires Framed(l, past) && (mtype == MSG_ACK || mtype == MSG_USER_CONTROL) && 0 < |payload| < TWO_24
    ensures Carries(l, Send(l, Control(mtype, payload)).0, past, [])
    ensures Send(l, Control(mtype, payload)).0.parser == l.parser
  {
    hide Framed, Steady, Send, IngestOne;
    ControlSteady(mtype, payload);
    SendCarries(l, past, Control(mtype, payload));
  }

  lemma AckCarries(l: Link, past: bytes)
    requires Framed(l, past)
    ensures Carries(l, MaybeAck(l).0, past, []) && MaybeAck(l).0.parser == l.parser
  {
    hide Send;
    CarriesNothing(l, l, past);
    ControlCarries(l, past, MSG_ACK, Be32(l.received % TWO_32));
  }

  lemma ReactCarries(l: Link, past: bytes, m: Message)
    requires Framed(l, past)
    ensures Carries(l, React(l, m).0, past, []) && React(l, m).0.parser == l.parser
  {
    hide Send, Framed;
    LinkPid(l, past);
    CarriesNothing(l, l, past);
    CarriesNothing(l, React(l, m).0.(sink := l.sink, sent := l.sent, chunk := l.chunk, pid := l.pid), past);
    if |m.payload| >= 6 {
      ControlCarries(l, past, MSG_USER_CONTROL, Be16(UCM_PING_RESPONSE) + Be32(Rd32(m.payload[2..6])));
    }
  }

  lemma ReceiveCarries(l: Link, past: bytes, next: Reader, used: nat, m: Message, now: int)
    requires Framed(l, past)
    ensures var n := Receive(l, next, used, m, now).0; Carries(l, n, past, []) && n.parser == l.parser
  {
    hide MaybeAck, React;
    var a := l.(reader := next, received := l.received + used, watch := W.Heard(now, BudgetOf(l)));
    CarriesNothing(l, a, past);
    AckCarries(a, past);
    CarriesTwice(l, a, MaybeAck(a).0, past, [], []);
    ReactCarries(MaybeAck(a).0, past, m);
    CarriesTwice(l, MaybeAck(a).0, React(MaybeAck(a).0, m).0, past, [], []);
  }

  lemma {:induction false} DrainCarries(l: Link, past: bytes, d: bytes, now: int, u: Cut)
    requires Framed(l, past)
    ensures Carries(l, DrainInbound(l, d, now, u).0, past, []) && DrainInbound(l, d, now, u).0.parser == l.parser
    decreases |d|
  {
    hide Receive, ReadMessage, Framed;
    LinkPid(l, past);
    CarriesNothing(l, l, past);
    match ReadMessage(l.reader.states, l.reader.size, d)
    case Starved => CarriesNothing(l, DrainInbound(l, d, now, u).0, past);
    case Got(states, used, m) =>
      var (n, ok) := Receive(l, l.reader.(states := states), used, m, now);
      ReceiveCarries(l, past, l.reader.(states := states), used, m, now);
      if ok {
        DrainCarries(n, past, d[used..], now, u);
        CarriesTwice(l, n, DrainInbound(n, d[used..], now, u).0, past, [], []);
      }
  }

  lemma CheckCarries(l: Link, past: bytes, now: int, stamp: nat)
    requires Framed(l, past)
    ensures Carries(l, CheckPeer(l, now, stamp).0, past, []) && CheckPeer(l, now, stamp).0.parser == l.parser
  {
    hide Send, W.Check;
    CarriesNothing(l, l, past);
    var counted := l.(watch := l.watch.(pings := l.watch.pings + 1));
    CarriesNothing(l, counted, past);
    ControlCarries(counted, past, MSG_USER_CONTROL, Be16(UCM_PING_REQUEST) + Be32(stamp));
  }

  /** A health check puts no media on the wire and takes none from it. */
  lemma MaintainCarries(l: Link, past: bytes, d: bytes, closed: bool, now: int, stamp: nat, u: Cut)
    requires Framed(l, past)
    ensures var n := Maintain(l, d, closed, now, stamp, u).0; Carries(l, n, past, []) && n.parser == l.parser
  {
    hide DrainInbound, CheckPeer, Framed;
    LinkPid(l, past);
    DrainCarries(l, past, d, now, u);
    DrainKeepsChunk(l, d, now, u);
    var a := DrainInbound(l, d, now, u).0;
    CheckCarries(a, past, now, stamp);
    CarriesTwice(l, a, CheckPeer(a, now, stamp).0, past, [], []);
  }

  // ---------------------------------------------------------------------------------
  // Writing
  // ---------------------------------------------------------------------------------

  lemma TagSteady(pid: nat, t: FlvTag)
    requires pid < TWO_32 && Carried(t)
    ensures EmitTag(pid, t) != [] ==> Steady(EmitTag(pid, t)[0]) && IngestOne(EmitTag(pid, t)[0].msg) == DecodeOne(t)
    ensures EmitTag(pid, t) == [] ==> DecodeOne(t) == []
  {
    hide Flv.DecodeVideo, Flv.DecodeAudio;
  }

  lemma {:induction false} SendAllCarries(l: Link, past: bytes, tags: seq<FlvTag>)
    requires Framed(l, past) && AllCarried(tags)
    requires forall i :: 0 <= i < |EmitTags(l.pid, tags)| ==> EmitTags(l.pid, tags)[i].cid < 64
    ensures var (n, ok) := SendAll(l, EmitTags(l.pid, tags));
      (ok ==> Carries(l, n, past, DecodeTags(tags))) && n.parser == l.parser
    decreases |tags|
  {
    hide Framed, Send, EmitTag, Carried, DecodeOne, IngestOne, Steady, Carries;
    if tags == [] {
      CarriesNothing(l, l, past);
    } else {
      var one, rest := EmitTag(l.pid, tags[0]), EmitTags(l.pid, tags[1..]);
      LinkPid(l, past);
      TagSteady(l.pid, tags[0]);
      OneEmitted(l.pid, tags[0]);
      EmittedIds(l.pid, tags[1..]);
      SendSplit(l, one, rest);
      var n := if one == [] then l else Send(l, one[0]).0;
      if one == [] {
        CarriesNothing(l, l, past);
      } else {
        SendCarries(l, past, one[0]);
      }
      if one == [] || Send(l, one[0]).1 {
        CarriesKeeps(l, n, past, DecodeOne(tags[0]));
        SendAllCarries(n, past, tags[1..]);
        if SendAll(n, rest).1 {
          CarriesTwice(l, n, SendAll(n, rest).0, past, DecodeOne(tags[0]), DecodeTags(tags[1..]));
        }
      }
    }
  }

  lemma LinkPid(l: Link, past: bytes)
    requires Framed(l, past)
    ensures l.pid < TWO_32 && l.chunk > 0
  {
  }

  lemma CarriesKeeps(l: Link, n: Link, past: bytes, media: seq<Flv.Decoded>)
    requires Carries(l, n, past, media)
    ensures Framed(n, past) && n.pid == l.pid && n.chunk == l.chunk
  {
  }

  lemma WriteCarries(l: Link, past: bytes, data: bytes)
    requires Framed(l, past) && AllCarried(Feed(l.parser, data).tags) && Write(l, data).1
    ensures Carries(l, Write(l, data).0, past, DecodeTags(Feed(l.parser, data).tags))
    ensures Write(l, data).0.parser == Feed(l.parser, data).parser
  {
    hide Framed, Feed, AllCarried, SendAll, Carries;
    var fed := Feed(l.parser, data);
    var n := l.(parser := fed.parser);
    CarriesNothing(l, n, past);
    CarriesKeeps(l, n, past, []);
    EmittedIds(l.pid, fed.tags);
    SendAllCarries(n, past, fed.tags);
    CarriesTwice(l, n, Write(l, data).0, past, [], DecodeTags(fed.tags));
    assert [] + DecodeTags(fed.tags) == DecodeTags(fed.tags);
  }

  // ---------------------------------------------------------------------------------
  // Runs
  // ---------------------------------------------------------------------------------

  /** The FLV bytes of a run, piece by piece. */
  function Pieces(steps: seq<Step>): seq<bytes> {
    if steps == [] then []
    else (if steps[0].WriteStep? then [steps[0].data] else []) + Pieces(steps[1..])
  }

  lemma KeepsChunk(l: Link, s: Step)
    requires l.chunk > 0
    ensures Do(l, s).0.chunk == l.chunk
  {
    hide DrainInbound, Frame, Put, Feed, W.Check;
    match s
    case WriteStep(data) =>
      EmittedIds(l.pid, Feed(l.parser, data).tags);
      SendAllKeepsChunk(l.(parser := Feed(l.parser, data).parser), EmitTags(l.pid, Feed(l.parser, data).tags));
    case MaintainStep(input, _, now, _, u) => DrainKeepsChunk(l, input, now, u);
  }

  lemma {:induction false} SendAllKeepsChunk(l: Link, ms: seq<OutMessage>)
    requires l.chunk > 0 && forall i :: 0 <= i < |ms| ==> ms[i].cid < 64
    ensures SendAll(l, ms).0.chunk == l.chunk
    decreases |ms|
  {
    hide Frame, Put;
    if ms != [] && Send(l, ms[0]).1 {
      SendAllKeepsChunk(Send(l, ms[0]).0, ms[1..]);
    }
  }

  /** Every step succeeds. */
  ghost predicate Succeeds(l: Link, steps: seq<Step>)
    requires l.chunk > 0
    decreases |steps|
  {
    steps != [] ==> Do(l, steps[0]).1 && (KeepsChunk(l, steps[0]); Succeeds(Do(l, steps[0]).0, steps[1..]))
  }

  function DoAll(l: Link, steps: seq<Step>): Link
    requires l.chunk > 0
    decreases |steps|
  {
    if steps == [] then l
    else
      KeepsChunk(l, steps[0]);
      DoAll(Do(l, steps[0]).0, steps[1..])
  }

  lemma StepCarries(l: Link, past: bytes, s: Step)
    requires Framed(l, past) && Do(l, s).1
    requires s.WriteStep? ==> AllCarried(Feed(l.parser, s.data).tags)
    ensures var n := Do(l, s).0;
      && Carries(l, n, past, if s.WriteStep? then DecodeTags(Feed(l.parser, s.data).tags) else [])
      && n.parser == if s.WriteStep? then Feed(l.parser, s.data).parser else l.parser
  {
    hide Framed, Feed, AllCarried, Carries, Write, Maintain;
    match s
    case WriteStep(data) => WriteCarries(l, past, data);
    case MaintainStep(input, closed, now, stamp, u) => MaintainCarries(l, past, input, closed, now, stamp, u);
  }

  lemma {:induction false} RunCarries(l: Link, past: bytes, steps: seq<Step>)
    requires Framed(l, past) && Succeeds(l, steps) && AllCarried(FeedAll(l.parser, Pieces(steps)).tags)
    ensures Carries(l, DoAll(l, steps), past, DecodeTags(FeedAll(l.parser, Pieces(steps)).tags))
    decreases |steps|
  {
    hide Framed, Feed, Carries, Do, Carried, DecodeOne;
    LinkPid(l, past);
    if steps == [] {
      CarriesNothing(l, l, past);
    } else {
      KeepsChunk(l, steps[0]);
      var n := Do(l, steps[0]).0;
      PiecesStep(l.parser, steps);
      var fed := if steps[0].WriteStep? then Feed(l.parser, steps[0].data) else Fed([], l.parser, false);
      var first, rest := fed.tags, FeedAll(fed.parser, Pieces(steps[1..])).tags;
      SplitCarried(first, rest);
      StepCarries(l, past, steps[0]);
      CarriesKeeps(l, n, past, DecodeTags(first));
      RunCarries(n, past, steps[1..]);
      CarriesTwice(l, n, DoAll(n, steps[1..]), past, DecodeTags(first), DecodeTags(rest));
      DecodeAppend(first, rest);
    }
  }

  lemma SplitCarried(a: seq<FlvTag>, b: seq<FlvTag>)
    requires AllCarried(a + b)
    ensures AllCarried(a) && AllCarried(b)
  {
    hide Carried;
    assert forall i :: 0 <= i < |a| ==> (a + b)[i] == a[i];
    assert forall i :: 0 <= i < |b| ==> (a + b)[|a| + i] == b[i];
  }

  lemma PiecesStep(p: Parser, steps: seq<Step>)
    requires steps != []
    ensures var first := if steps[0].WriteStep? then Feed(p, steps[0].data) else Fed([], p, false);
            FeedAll(p, Pieces(steps)).tags == first.tags + FeedAll(first.parser, Pieces(steps[1..])).tags
  {
    hide Feed;
    var rest := Pieces(steps[1..]);
    if steps[0].WriteStep? {
      assert ([steps[0].data] + rest)[1..] == rest;
    } else {
      assert Pieces(steps) == rest;
    }
  }

  /**
    Over any successful run of a fresh connection, whatever the peer sends and however writes and
    health checks interleave, a reader with the connection's chunk size takes every byte and decodes
    exactly the tags of the FLV stream that was written.
   */
  lemma MediaSurvivesControlTraffic(l: Link, steps: seq<Step>, r: Reader)
    requires l.chunk > 0 && l.pid < TWO_32 && l.sent == [] && l.parser == FRESH && Succeeds(l, steps)
    requires !DoAll(l, steps).sink.dead && r.size == Min(l.chunk, MAX_CHUNK_SIZE)
    requires AllCarried(TagsOf(Flat(Pieces(steps))))
    ensures |l.sink.log| <= |DoAll(l, steps).sink.log|
    ensures var wire := DoAll(l, steps).sink.log[|l.sink.log|..];
      && Pump(r, wire).used == |wire|
      && Ingest(Pump(r, wire).msgs) == DecodeTags(TagsOf(Flat(Pieces(steps))))
      && forall m :: m in Pump(r, wire).msgs ==> m.mtype != MSG_AMF0_COMMAND
  {
    hide DoAll, Succeeds, Drain, StepOf, Pump, Carried;
    FreshWaits();
    IncrementalParsing(FRESH, Pieces(steps));
    var past := l.sink.log;
    assert past + FrameAll([], l.chunk) == past;
    RunCarries(l, past, steps);
    var n := DoAll(l, steps);
    var wire := FrameAll(n.sent, n.chunk);
    FramedRunRoundTrip(n.sent, n.chunk, r);
    assert n.sink.log[|past|..] == wire;
    NoMedia(l);
  }

  lemma NoMedia(l: Link)
    requires l.sent == []
    ensures Ingest(Plain(l.sent)) == []
  {
  }

  // ---------------------------------------------------------------------------------
  // Replies
  // ---------------------------------------------------------------------------------

  /** A ping request is answered at once, with the stamp it carried. */
  lemma PingEchoed(l: Link, m: Message)
    requires l.chunk > 0 && React(l, m).1
    requires m.mtype == MSG_USER_CONTROL && |m.payload| >= 6 && m.payload[..2] == [0, 0]
    ensures React(l, m).0.sent == l.sent + [Control(MSG_USER_CONTROL, [0, 1] + m.payload[2..6])]
    ensures React(l, m).0.reader == l.reader
  {
    hide Frame, Put, Be32, Rd32;
    Be32Rd32(m.payload[2..6]);
    assert Be16(UCM_PING_RESPONSE) == [0, 1];
  }

  // ---------------------------------------------------------------------------------
  // The watchdog inside the connection
  // ---------------------------------------------------------------------------------

  lemma ReceiveHeard(l: Link, next: Reader, used: nat, m: Message, now: int)
    requires l.chunk > 0
    ensures var n := Receive(l, next, used, m, now).0; n.watch == W.Heard(now, BudgetOf(l)) && n.budget == l.budget
  {
    hide Frame, Put, HandleControl;
  }

  /** Whether a health check reads anything. */
  predicate Hears(l: Link, d: bytes) {
    ReadMessage(l.reader.states, l.reader.size, d).Got?
  }

  lemma {:induction false} DrainHeard(l: Link, d: bytes, now: int, u: Cut)
    requires l.chunk > 0
    ensures var n := DrainInbound(l, d, now, u).0;
      n.budget == l.budget && n.watch == if Hears(l, d) then W.Heard(now, BudgetOf(l)) else l.watch
    decreases |d|
  {
    hide ReadMessage, Receive;
    match ReadMessage(l.reader.states, l.reader.size, d)
    case Starved =>
    case Got(states, used, m) =>
      var (n, ok) := Receive(l, l.reader.(states := states), used, m, now);
      ReceiveHeard(l, l.reader.(states := states), used, m, now);
      ReceiveKeepsChunk(l, l.reader.(states := states), used, m, now);
      if ok {
        DrainHeard(n, d[used..], now, u);
      }
  }

  /**
    A health check of a connection is one call of the watchdog: it succeeds only when the watchdog
    does not trip, and leaves the watch that `Watchdog` says.
   */
  lemma MaintainWatches(l: Link, d: bytes, closed: bool, now: int, stamp: nat, u: Cut)
    requires l.chunk > 0 && l.budget.Some?
    ensures var (n, ok) := Maintain(l, d, closed, now, stamp, u);
      var (next, v) := W.Step(l.watch, l.budget.value, W.Call(now, Hears(l, d)));
      && (ok ==> v != W.Dead && n.watch == next && n.budget == l.budget)
      && (v == W.Dead ==> !ok)
  {
    hide DrainInbound, Send, W.Check, Hears;
    DrainKeepsChunk(l, d, now, u);
    DrainHeard(l, d, now, u);
    var a := DrainInbound(l, d, now, u).0;
    CheckWatches(a, now, stamp);
  }

  lemma CheckWatches(l: Link, now: int, stamp: nat)
    requires l.chunk > 0 && l.budget.Some?
    ensures var (n, ok) := CheckPeer(l, now, stamp);
      var (next, v) := W.Check(l.watch, l.budget.value, now);
      && (ok ==> v != W.Dead && n.watch == next && n.budget == l.budget)
      && (v == W.Dead ==> !ok)
  {
    hide Frame, Put;
  }
}
