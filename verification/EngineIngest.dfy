/**
  The engine joined to the wire path: what ingest decodes of everything the engine wrote, over all its
  connections, is the packets it counts as muxed, up to the echoes that `EngineWire` describes.
 */
module EngineIngest {
  import opened Bytes
  import opened Media
  import opened FlvTags
  import opened Mux
  import opened Timeline
  import opened TagLog
  import opened Decoding
  import opened Chunks
  import opened Publish
  import opened Engines
  import opened EngineRuns
  import opened EngineWire
  import Flv
  import H264

  /** The frames among decoded tags. */
  function PacketsIn(decoded: seq<Flv.Decoded>): seq<MediaPacket> {
    if decoded == [] then []
    else
      (match decoded[0]
       case Packet(q) => [q]
       case _ => [])
      + PacketsIn(decoded[1..])
  }

  /** What a told packet must come out as. */
  function FrameOf(told: Told): seq<MediaPacket> {
    FrameAt(told.packet, told.at)
  }

  function FramesTold(told: seq<Told>): seq<MediaPacket> {
    if told == [] then [] else FrameOf(told[0]) + FramesTold(told[1..])
  }

  /** Inside the format's ranges a frame has exactly its times, key flag and NAL units. */
  lemma FrameInRange(told: Told)
    requires told.packet.kind == Video && H264.Nals(told.packet.data) != []
    requires 0 <= told.at.dts < TWO_32 && -0x80_0000 <= told.at.pts - told.at.dts <= 0x7F_FFFF
    ensures |FrameOf(told)| == 1
    ensures var q := FrameOf(told)[0];
      && q.dts == told.at.dts && q.pts == told.at.pts && q.isKey == told.packet.isKey
      && H264.Nals(q.data) == H264.Nals(told.packet.data)
  {
    H264.SplitJoinSplit(told.packet.data);
  }

  lemma {:induction false} PacketsAppend(a: seq<Flv.Decoded>, b: seq<Flv.Decoded>)
    ensures PacketsIn(a + b) == PacketsIn(a) + PacketsIn(b)
  {
    if a == [] {
      assert a + b == b;
    } else {
      assert (a + b)[1..] == a[1..] + b;
      PacketsAppend(a[1..], b);
    }
  }

  lemma ShownDecodes(t: FlvTag, told: Told)
    requires Shows(t, told)
    ensures PacketsIn(DecodeOne(t)) == FrameOf(told)
  {
    hide Carries, Fits, StampedAt, FrameAt;
    StampedDecodes(t, told.packet, told.at);
    OnlyPackets(FrameOf(told));
  }

  lemma {:induction false} OnlyPackets(qs: seq<MediaPacket>)
    ensures PacketsIn(AsPackets(qs)) == qs
  {
    if qs != [] {
      assert AsPackets(qs)[1..] == AsPackets(qs[1..]);
      OnlyPackets(qs[1..]);
    }
  }

  lemma HeaderDecodes(t: FlvTag)
    requires IsHeaderStyle(t)
    ensures PacketsIn(DecodeOne(t)) == []
  {
  }

  lemma MatchHead(f: FlvTag, rest: seq<FlvTag>, told: seq<Told>)
    requires Match([f] + rest, told)
    ensures told != [] && Shows(f, told[0]) && Match(rest, told[1..])
  {
    hide Shows;
    assert ([f] + rest)[0] == f;
    assert forall i :: 0 <= i < |rest| ==> ([f] + rest)[i + 1] == rest[i];
  }

  lemma {:induction false} TagsDecode(tags: seq<FlvTag>, told: seq<Told>)
    requires Match(FramesOf(tags), told)
    ensures PacketsIn(DecodeTags(tags)) == FramesTold(told)
    decreases |tags|
  {
    hide DecodeOne, Shows, IsMedia, FrameOf, Match, PacketsIn;
    if tags == [] {
      NoFrames(told);
    } else {
      PacketsAppend(DecodeOne(tags[0]), DecodeTags(tags[1..]));
      if IsHeaderStyle(tags[0]) {
        HeaderDecodes(tags[0]);
        assert FramesOf(tags) == FramesOf(tags[1..]);
        TagsDecode(tags[1..], told);
      } else {
        MatchHead(tags[0], FramesOf(tags[1..]), told);
        ShownDecodes(tags[0], told[0]);
        TagsDecode(tags[1..], told[1..]);
      }
    }
  }

  lemma NoFrames(told: seq<Told>)
    requires Match([], told)
    ensures PacketsIn([]) == FramesTold(told)
  {
  }

  /** Over every run, all connections together decode to the frames of the packets written down, times included. */
  lemma RunDecodes(profile: LatencyProfile, meta: bytes, events: seq<Event>)
    requires |meta| < TWO_24 && AllFitEvents(events)
    ensures var t := FollowAll(NewTrace(profile, meta), events);
      PacketsIn(DecodeTags(AllTags(t.w))) == FramesTold(AllTold(t)) && CountedOf(AllTold(t)) == t.w.muxed
  {
    hide FollowAll, FitEvent, DecodeTags, FramesOf, Shows, Run;
    WireTellsMuxed(profile, meta, events);
    var t := FollowAll(NewTrace(profile, meta), events);
    TagsDecode(AllTags(t.w), AllTold(t));
  }

  lemma AllCarriedHere(tags: seq<FlvTag>, meta: bytes)
    requires AllWellformed(tags, Some(meta)) && 0 < |meta| && |meta| + |SET_DATA_FRAME| < TWO_24
    ensures AllCarried(tags)
  {
    forall i | 0 <= i < |tags| ensures Carried(tags[i]) {
      assert Wellformed(tags[i], Some(meta));
    }
  }

  /**
    From the engine to ingest: in whatever pieces the attached connection's bytes reach its transport,
    cut into chunks and read back they decode to the frames of the packets this connection showed, with
    the times these have on its timeline.
   */
  lemma EngineToIngest(profile: LatencyProfile, meta: bytes, events: seq<Event>, pieces: seq<bytes>,
                       pid: nat, size: nat, r: Reader)
    requires 0 < |meta| && |meta| + |SET_DATA_FRAME| < TWO_24 && AllFitEvents(events)
    requires var e := FollowAll(NewTrace(profile, meta), events).w.engine;
      e.muxer.Some? && Flat(pieces) == e.muxer.value.sink.log
    requires pid < TWO_32 && size > 0 && r.size == Min(size, MAX_CHUNK_SIZE)
    ensures var sent := EmitTags(pid, FeedAll(FRESH, pieces).tags);
      && AllSendable(sent)
      && Pump(r, FrameAll(sent, size)).used == |FrameAll(sent, size)|
      && PacketsIn(Ingest(Pump(r, FrameAll(sent, size)).msgs))
           == FramesTold(FollowAll(NewTrace(profile, meta), events).here)
  {
    hide FollowAll, FitEvent, DecodeTags, FramesOf, Shows, Drain, StepOf, Pump, Carried, Wellformed, Run, Ledgered;
    FreshTraced(profile, meta);
    RunTraced(NewTrace(profile, meta), events);
    var t := FollowAll(NewTrace(profile, meta), events);
    RunKeepsMeta(NewWorld(profile, meta), events);
    AllCarriedHere(Current(t.w.engine), meta);
    TagsDecode(Current(t.w.engine), t.here);
    WireTransparent(pieces, pid, size, r);
  }

  lemma FreshTraced(profile: LatencyProfile, meta: bytes)
    requires |meta| < TWO_24
    ensures Traced(NewTrace(profile, meta)) && Ledgered(NewTrace(profile, meta))
  {
    NothingTold();
    NothingMatches();
  }

  lemma {:induction false} RunKeepsMeta(w: World, events: seq<Event>)
    ensures Run(w, events).engine.meta == w.engine.meta
    decreases |events|
  {
    if events != [] {
      StepKeepsMeta(w, events[0]);
      RunKeepsMeta(Next(w, events[0]), events[1..]);
    }
  }

  lemma StepKeepsMeta(w: World, ev: Event)
    ensures Next(w, ev).engine.meta == w.engine.meta
  {
    hide PushSeq, PushDrops, InitCodecs, TagsOf, SendBatch, Kept, Orphans, SortByDts, SendStrict;
  }
}
