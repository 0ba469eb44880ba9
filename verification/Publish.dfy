/**
  The publish path end to end: packets through the muxer, the FLV parser of the transport, RTMP
  chunks, the ingest reader and the FLV decoder, back to packets.
 */
module Publish {
  import opened Bytes
  import opened Media
  import opened FlvTags
  import opened Mux
  import opened Timeline
  import opened Chunks
  import A = Amf0
  import Flv
  import H264

  const MSG_AUDIO: byte := 8
  const MSG_VIDEO: byte := 9
  const MSG_AMF0_DATA: byte := 18

  const CID_COMMAND := 3
  const CID_AUDIO := 6
  const CID_VIDEO := 7

  /** The command that tells the server to keep the metadata behind it. */
  const SET_DATA_FRAME: bytes :=
    A.Encode(A.StringItem(Ascii("@setDataFrame"))) + A.Encode(A.StringItem(Ascii("onMetaData")))

  /** The message that carries a tag: media as is, metadata behind its frame command, nothing else. */
  function EmitTag(pid: nat, t: FlvTag): seq<OutMessage> {
    if t.mtype == Flv.TAG_VIDEO then [OutMessage(CID_VIDEO, pid, Message(MSG_VIDEO, t.ts, t.body))]
    else if t.mtype == Flv.TAG_AUDIO then [OutMessage(CID_AUDIO, pid, Message(MSG_AUDIO, t.ts, t.body))]
    else if t.mtype == Flv.TAG_SCRIPT && |t.body| > 3 && t.body[0] == 2 then
      var rest := 3 + Rd16(t.body[1..3]);
      if |t.body| > rest then
        [OutMessage(CID_COMMAND, pid, Message(MSG_AMF0_DATA, t.ts, SET_DATA_FRAME + t.body[rest..]))]
      else []
    else []
  }

  function EmitTags(pid: nat, tags: seq<FlvTag>): seq<OutMessage> {
    if tags == [] then [] else EmitTag(pid, tags[0]) + EmitTags(pid, tags[1..])
  }

  /** What ingest makes of a message stream: media messages are decoded, the others are not media. */
  function Ingest(msgs: seq<Message>): seq<Flv.Decoded> {
    if msgs == [] then [] else IngestOne(msgs[0]) + Ingest(msgs[1..])
  }

  function IngestOne(m: Message): seq<Flv.Decoded> {
    if m.mtype == MSG_VIDEO || m.mtype == MSG_AUDIO then
      match Flv.DecodeTag(m.mtype, m.ts, m.payload)
      case None => []
      case Some(d) => [d]
    else []
  }

  function DecodeOne(t: FlvTag): seq<Flv.Decoded> {
    match Flv.DecodeTag(t.mtype, t.ts, t.body)
    case None => []
    case Some(d) => [d]
  }

  function DecodeTags(tags: seq<FlvTag>): seq<Flv.Decoded> {
    if tags == [] then [] else DecodeOne(tags[0]) + DecodeTags(tags[1..])
  }

  // ---------------------------------------------------------------------------------
  // The transport carries tags unchanged
  // ---------------------------------------------------------------------------------

  /** A tag that the chunk format can carry. */
  predicate Carried(t: FlvTag) {
    && t.ts < TWO_32 && 0 < |t.body|
    && |t.body| + (if t.mtype == Flv.TAG_SCRIPT then |SET_DATA_FRAME| else 0) < TWO_24
  }

  ghost predicate AllCarried(tags: seq<FlvTag>) {
    forall i :: 0 <= i < |tags| ==> Carried(tags[i])
  }

  lemma {:induction false} EmittedSendable(pid: nat, tags: seq<FlvTag>)
    requires pid < TWO_32 && AllCarried(tags)
    ensures AllSendable(EmitTags(pid, tags))
  {
    if tags != [] {
      assert Carried(tags[0]);
      EmittedSendable(pid, tags[1..]);
    }
  }

  lemma {:induction false} IngestAppend(xs: seq<Message>, ys: seq<Message>)
    ensures Ingest(xs + ys) == Ingest(xs) + Ingest(ys)
  {
    if xs == [] {
      assert xs + ys == ys;
    } else {
      assert (xs + ys)[1..] == xs[1..] + ys;
      IngestAppend(xs[1..], ys);
    }
  }

  lemma {:induction false} IngestEmitted(pid: nat, tags: seq<FlvTag>)
    ensures Ingest(Plain(EmitTags(pid, tags))) == DecodeTags(tags)
  {
    hide Flv.DecodeVideo, Flv.DecodeAudio;
    if tags != [] {
      var one, rest := EmitTag(pid, tags[0]), EmitTags(pid, tags[1..]);
      IngestEmitted(pid, tags[1..]);
      assert Plain(one + rest) == Plain(one) + Plain(rest);
      IngestAppend(Plain(one), Plain(rest));
      assert Ingest(Plain(one)) == DecodeOne(tags[0]) by {
        if one != [] {
          assert Plain(one) == [one[0].msg];
          assert Ingest([one[0].msg]) == IngestOne(one[0].msg) + Ingest([]);
        }
      }
    }
  }

  /**
    The wire is transparent: an FLV stream written to the transport in any pieces, framed into
    chunks of any size and read back, decodes as its tags do one by one.
   */
  lemma WireTransparent(pieces: seq<bytes>, pid: nat, size: nat, r: Reader)
    requires pid < TWO_32 && size > 0 && r.size == Min(size, MAX_CHUNK_SIZE)
    requires AllCarried(TagsOf(Flat(pieces)))
    ensures var sent := EmitTags(pid, FeedAll(FRESH, pieces).tags);
            && AllSendable(sent)
            && Pump(r, FrameAll(sent, size)).used == |FrameAll(sent, size)|
            && Ingest(Pump(r, FrameAll(sent, size)).msgs) == DecodeTags(TagsOf(Flat(pieces)))
  {
    hide StepOf, Drain, EmitTag, ReadMessage;
    FreshWaits();
    IncrementalParsing(FRESH, pieces);
    var tags := TagsOf(Flat(pieces));
    EmittedSendable(pid, tags);
    FramedRunRoundTrip(EmitTags(pid, tags), size, r);
    IngestEmitted(pid, tags);
  }

  lemma FreshWaits()
    ensures StepOf(FRESH).Wait?
  {
  }

  // ---------------------------------------------------------------------------------
  // The tags of a packet
  // ---------------------------------------------------------------------------------

  /** The sequence header that a packet brings along, if one is missing. */
  function ConfigTags(m: Mux, p: MediaPacket): seq<FlvTag> {
    if !m.videoSeq && IsKeyframe(p) && AnnexBToAvcc(p.data).Some? then
      [TagAt(Flv.TAG_VIDEO, HeaderTs(m), Flv.VideoConfigBody(AnnexBToAvcc(p.data).value))]
    else if !m.audioSeq && p.kind == Audio && AdtsToAsc(p.data).Some? then
      [TagAt(Flv.TAG_AUDIO, HeaderTs(m), Flv.AudioConfigBody(AdtsToAsc(p.data).value))]
    else []
  }

  lemma ConfigSeen(m: Mux, p: MediaPacket)
    requires Intact(m) && m.header && !m.sink.dead && Fits(p)
    ensures var s := SniffConfig(m, p);
            s.1 == Done ==>
              && Intact(s.0) && s.0.header && !s.0.sink.dead
              && TagsOf(s.0.sink.log) == TagsOf(m.sink.log) + ConfigTags(m, p)
              && s.0 == m.(sink := s.0.sink, videoSeq := s.0.videoSeq, audioSeq := s.0.audioSeq, avcc := s.0.avcc,
                  asc := s.0.asc)
  {
    hide TagBytes, Drain, StepOf, H264.Nals, H264.Prefixed, FindSets, ParseAdts, Put;
    assert TagsOf(m.sink.log) + [] == TagsOf(m.sink.log);
    if ConfigTags(m, p) != [] {
      PutTagSeen(m.sink, ConfigTags(m, p)[0]);
    }
  }

  lemma MediaSeen(m: Mux, p: MediaPacket)
    requires Intact(m) && m.header && !m.sink.dead && Fits(p) && WriteMedia(m, p).1 == Done
    ensures var m' := WriteMedia(m, p).0;
            && TrackTime(m, p).Some? && Intact(m') && m'.header && !m'.sink.dead
            && TagsOf(m'.sink.log) == TagsOf(m.sink.log) + [MediaTag(m, p, TrackTime(m, p).value)]
  {
    hide TagBytes, Drain, StepOf, H264.Nals, H264.Prefixed, FindSets, ParseAdts, Put, MediaTag, Fits;
    var ts := TrackTime(m, p).value;
    MediaTagShape(m, p, ts);
    PutTagSeen(m.sink, MediaTag(m, p, ts));
  }

  /**
    The frame: its time stamps are those of the timeline within what the format can carry, and
    its data is the normal form of the packet's NAL units, or the frame inside the ADTS wrapper.
   */
  function Frames(m: Mux, p: MediaPacket): seq<Flv.Decoded>
    requires TrackTime(m, p).Some?
  {
    var ts := TrackTime(m, p).value;
    var dts := Flv.ClampTs(ts);
    if p.kind == Audio then [Flv.Packet(MediaPacket(Audio, dts, dts, false, StripAdts(p.data)))]
    else if H264.Nals(p.data) == [] then []
    else
      var offset := Flv.ClampOffset(p.pts - OriginFor(m, p.dts) - ts);
      [Flv.Packet(MediaPacket(Video, dts + offset, dts, p.isKey, H264.AnnexB(H264.Nals(p.data))))]
  }

  lemma NalsSized(p: MediaPacket)
    requires p.kind == Video && Fits(p)
    ensures H264.Sized(H264.Nals(p.data))
  {
    hide H264.Nals, FindSets;
    var nals := H264.Nals(p.data);
    H264.NalsCarriable(p.data);
    forall k | 0 <= k < |nals| ensures 0 < |nals[k]| < TWO_32 {
      assert H264.Carriable(nals[k]);
      PrefixedLonger(nals, k);
    }
  }

  lemma {:induction false} PrefixedLonger(nals: seq<bytes>, k: nat)
    requires k < |nals|
    ensures |nals[k]| <= |H264.Prefixed(nals)|
  {
    if k > 0 {
      PrefixedLonger(nals[1..], k - 1);
    }
  }

  lemma FrameDecodes(m: Mux, p: MediaPacket)
    requires TrackTime(m, p).Some? && Fits(p)
    ensures DecodeOne(MediaTag(m, p, TrackTime(m, p).value)) == Frames(m, p)
  {
    hide H264.Nals, FindSets, Flv.DecodeTag, Flv.VideoBody, Flv.AudioBody, Fits, TrackTime;
    var ts := TrackTime(m, p).value;
    match p.kind
    case Video =>
      NalsSized(p);
      Flv.DecodeVideoBody(Flv.ClampTs(ts), p.isKey, p.pts - OriginFor(m, p.dts) - ts, H264.Nals(p.data));
    case Audio =>
      Flv.DecodeOtherBodies(Flv.ClampTs(ts), [], [], StripAdts(p.data));
  }

  /** Inside the format's ranges a frame keeps its normalized times, even when its dts was clamped. */
  lemma FramesInRange(m: Mux, p: MediaPacket)
    requires TrackTime(m, p).Some? && p.kind == Video && H264.Nals(p.data) != []
    requires 0 <= TrackTime(m, p).value < TWO_32
    requires -0x80_0000 <= p.pts - OriginFor(m, p.dts) - TrackTime(m, p).value <= 0x7F_FFFF
    ensures |Frames(m, p)| == 1 && Frames(m, p)[0].Packet?
    ensures var q := Frames(m, p)[0].packet;
            && q.kind == Video && q.isKey == p.isKey
            && q.dts == TrackTime(m, p).value && q.pts == p.pts - OriginFor(m, p.dts)
            && H264.Nals(q.data) == H264.Nals(p.data)
  {
    H264.SplitJoinSplit(p.data);
  }

  // ---------------------------------------------------------------------------------
  // A run of packets
  // ---------------------------------------------------------------------------------

  /** A muxer that can go on: no write failed and the bytes end after a tag. */
  ghost predicate Going(m: Mux) {
    Intact(m) && !m.sink.dead
  }

  ghost predicate AllWritten(m: Mux, ps: seq<MediaPacket>)
    decreases |ps|
  {
    ps != [] ==> Fits(ps[0]) && WritePacket(m, ps[0]).1 == Done && AllWritten(WritePacket(m, ps[0]).0, ps[1..])
  }

  function AfterAll(m: Mux, ps: seq<MediaPacket>): Mux
    decreases |ps|
  {
    if ps == [] then m else AfterAll(WritePacket(m, ps[0]).0, ps[1..])
  }

  /** The state a packet's frame is stamped in: the file and sequence headers are out. */
  function Prepared(m: Mux, p: MediaPacket): Mux {
    SniffConfig(EnsureHeader(m), p).0
  }

  function ExpectedAll(m: Mux, ps: seq<MediaPacket>): seq<Flv.Decoded>
    requires AllWritten(m, ps)
    decreases |ps|
  {
    hide WritePacket, Fits, Frames, ConfigTags, Prepared;
    if ps == [] then []
    else
      WrittenHasTime(m, ps[0]);
      DecodeTags(ConfigTags(EnsureHeader(m), ps[0])) + Frames(Prepared(m, ps[0]), ps[0])
      + ExpectedAll(WritePacket(m, ps[0]).0, ps[1..])
  }

  lemma WrittenHasTime(m: Mux, p: MediaPacket)
    requires WritePacket(m, p).1 == Done
    ensures TrackTime(Prepared(m, p), p).Some?
  {
  }

  lemma {:induction false} DecodeAppend(xs: seq<FlvTag>, ys: seq<FlvTag>)
    ensures DecodeTags(xs + ys) == DecodeTags(xs) + DecodeTags(ys)
  {
    if xs == [] {
      assert xs + ys == ys;
    } else {
      assert (xs + ys)[1..] == xs[1..] + ys;
      DecodeAppend(xs[1..], ys);
    }
  }

  lemma PacketDecodes(m: Mux, p: MediaPacket)
    requires Going(m) && Fits(p) && WritePacket(m, p).1 == Done
    ensures var m' := WritePacket(m, p).0;
            && Going(m') && TrackTime(Prepared(m, p), p).Some?
            && DecodeTags(TagsOf(m'.sink.log)) ==
               DecodeTags(TagsOf(m.sink.log)) + DecodeTags(ConfigTags(EnsureHeader(m), p)) + Frames(Prepared(m, p), p)
  {
    hide EnsureHeader, SniffConfig, WriteMedia, Fits, Frames, ConfigTags, TrackTime, MediaTag, DecodeOne, Drain,
         StepOf;
    PutHeaderSeen(m);
    HeaderGoing(m);
    var h := EnsureHeader(m);
    ConfigSeen(h, p);
    var s := SniffConfig(h, p).0;
    MediaSeen(s, p);
    FrameDecodes(s, p);
    var tag := MediaTag(s, p, TrackTime(s, p).value);
    DecodeAppend(TagsOf(m.sink.log), ConfigTags(h, p));
    DecodeAppend(TagsOf(m.sink.log) + ConfigTags(h, p), [tag]);
    assert DecodeTags([tag]) == DecodeOne(tag) + DecodeTags([]);
  }

  lemma ConfigCarried(m: Mux, p: MediaPacket)
    requires Fits(p)
    ensures AllCarried(ConfigTags(m, p))
  {
    hide H264.Nals, H264.Prefixed, FindSets, ParseAdts;
  }

  lemma FrameCarried(m: Mux, p: MediaPacket, ts: int)
    requires Fits(p)
    ensures Carried(MediaTag(m, p, ts))
  {
    hide H264.Nals, H264.Prefixed, FindSets, ParseAdts;
  }

  lemma PacketCarried(m: Mux, p: MediaPacket)
    requires Going(m) && Fits(p) && WritePacket(m, p).1 == Done && AllCarried(TagsOf(m.sink.log))
    ensures AllCarried(TagsOf(WritePacket(m, p).0.sink.log))
  {
    hide EnsureHeader, SniffConfig, WriteMedia, Fits, ConfigTags, TrackTime, MediaTag, Drain, StepOf, Carried;
    PutHeaderSeen(m);
    HeaderGoing(m);
    var h := EnsureHeader(m);
    ConfigSeen(h, p);
    ConfigCarried(h, p);
    var s := SniffConfig(h, p).0;
    MediaSeen(s, p);
    FrameCarried(s, p, TrackTime(s, p).value);
  }

  lemma HeaderGoing(m: Mux)
    requires Going(m) && EnsureHeader(m).header
    ensures !EnsureHeader(m).sink.dead
  {
  }

  lemma {:induction false} RunDecodes(m: Mux, ps: seq<MediaPacket>)
    requires Going(m) && AllWritten(m, ps) && AllCarried(TagsOf(m.sink.log))
    ensures Going(AfterAll(m, ps)) && AllCarried(TagsOf(AfterAll(m, ps).sink.log))
    ensures DecodeTags(TagsOf(AfterAll(m, ps).sink.log)) == DecodeTags(TagsOf(m.sink.log)) + ExpectedAll(m, ps)
    decreases |ps|
  {
    hide WritePacket, Fits, Frames, ConfigTags, Prepared, Going, TagsOf, AllCarried, DecodeTags;
    if ps != [] {
      PacketDecodes(m, ps[0]);
      PacketCarried(m, ps[0]);
      RunDecodes(WritePacket(m, ps[0]).0, ps[1..]);
    }
  }

  /**
    End to end: whatever packets a muxer accepts, and in whatever pieces the connection's bytes
    reach the transport, ingest decodes what the muxer had sent before and then exactly the
    packets' frames, in order, each behind the sequence header it brought along.
   */
  lemma EndToEnd(m: Mux, ps: seq<MediaPacket>, pieces: seq<bytes>, pid: nat, size: nat, r: Reader)
    requires Going(m) && AllWritten(m, ps) && AllCarried(TagsOf(m.sink.log))
    requires Flat(pieces) == AfterAll(m, ps).sink.log
    requires pid < TWO_32 && size > 0 && r.size == Min(size, MAX_CHUNK_SIZE)
    ensures var sent := EmitTags(pid, FeedAll(FRESH, pieces).tags);
            && AllSendable(sent)
            && Pump(r, FrameAll(sent, size)).used == |FrameAll(sent, size)|
            && Ingest(Pump(r, FrameAll(sent, size)).msgs) ==
               DecodeTags(TagsOf(m.sink.log)) + ExpectedAll(m, ps)
  {
    hide Drain, StepOf, WritePacket, AfterAll, ExpectedAll, Pump, DecodeTags;
    RunDecodes(m, ps);
    WireTransparent(pieces, pid, size, r);
  }

  /** A fresh muxer on a fresh connection is one to start from. */
  lemma FreshGoing(room: nat)
    ensures var m := NewMux(Sink([], room, false));
            Going(m) && TagsOf(m.sink.log) == [] && DecodeTags([]) == []
  {
  }

  /** From a fresh connection on, ingest decodes exactly the accepted packets' frames. */
  lemma EndToEndFresh(room: nat, ps: seq<MediaPacket>, pieces: seq<bytes>, pid: nat, size: nat, r: Reader)
    requires var m := NewMux(Sink([], room, false)); AllWritten(m, ps) && Flat(pieces) == AfterAll(m, ps).sink.log
    requires pid < TWO_32 && size > 0 && r.size == Min(size, MAX_CHUNK_SIZE)
    ensures var sent := EmitTags(pid, FeedAll(FRESH, pieces).tags);
            && AllSendable(sent)
            && Pump(r, FrameAll(sent, size)).used == |FrameAll(sent, size)|
            && Ingest(Pump(r, FrameAll(sent, size)).msgs) == ExpectedAll(NewMux(Sink([], room, false)), ps)
  {
    hide Drain, StepOf, WritePacket, AfterAll, ExpectedAll, Pump, DecodeTags, TagsOf, Going;
    var m := NewMux(Sink([], room, false));
    FreshGoing(room);
    EndToEnd(m, ps, pieces, pid, size, r);
    assert [] + ExpectedAll(m, ps) == ExpectedAll(m, ps);
  }
}
