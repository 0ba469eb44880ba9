/**
  What a muxer's bytes decode to: each call adds the configurations and the frame that the sink took, at
  the times of the muxer's clock, said of the state before the call.
 */
module Decoding {
  import opened Bytes
  import opened Media
  import opened FlvTags
  import opened Mux
  import opened MuxRoom
  import opened Timeline
  import opened TagLog
  import opened Publish
  import Flv
  import H264

  /**
    What a packet must come out as: its NAL units in normal form, or the frame inside the ADTS wrapper,
    at its times on the timeline, as far as the format can carry them.
   */
  function FrameAt(p: MediaPacket, at: Stamp): seq<MediaPacket> {
    var dts := Flv.ClampTs(at.dts);
    match p.kind
    case Video =>
      if H264.Nals(p.data) == [] then []
      else
        var offset := Flv.ClampOffset(at.pts - at.dts);
        [MediaPacket(Video, dts + offset, dts, p.isKey, H264.AnnexB(H264.Nals(p.data)))]
    case Audio => [MediaPacket(Audio, dts, dts, false, StripAdts(p.data))]
  }

  function AsPackets(qs: seq<MediaPacket>): seq<Flv.Decoded> {
    seq(|qs|, i requires 0 <= i < |qs| => Flv.Packet(qs[i]))
  }

  /** A tag that carries a packet's frame at its times decodes to just that. */
  lemma StampedDecodes(t: FlvTag, p: MediaPacket, at: Stamp)
    requires Carries(t, p) && Fits(p) && StampedAt(t, p, at)
    ensures DecodeOne(t) == AsPackets(FrameAt(p, at))
  {
    hide H264.Nals, H264.Prefixed, FindSets, StripAdts, H264.AnnexB, H264.Unprefixed, H264.Sized, Flv.ClampTs,
         Flv.ClampOffset, Flv.SignExtend, Flv.CompositionTime;
    match p.kind
    case Video =>
      NalsSized(p);
      Flv.OffsetRoundTrip(at.pts - at.dts);
      H264.PrefixRoundTrip(t.body[5..], H264.Nals(p.data));
    case Audio =>
      assert t.body[2..] == StripAdts(p.data);
  }

  /** Everything that the bytes of a muxer decode to. */
  function Decoded(m: Mux): seq<Flv.Decoded> {
    DecodeTags(TagsOf(m.sink.log))
  }

  // ---------------------------------------------------------------------------------
  // Tags
  // ---------------------------------------------------------------------------------

  /** A tag is decoded exactly when the sink took its header and body. */
  lemma TagDecodes(m: Mux, t: FlvTag)
    requires Intact(m) && m.header && Encodable(t)
    ensures var n := m.(sink := Put(m.sink, TagBytes(t)));
      Intact(n) && Decoded(n) == Decoded(m) + if 11 + |t.body| <= Room(m.sink) then DecodeOne(t) else []
  {
    hide TagBytes, TagsOf, DecodeOne, Drain, StepOf;
    if !m.sink.dead {
      PutTagSeen(m.sink, t);
      IntactAfter(m, t);
      DecodeAppend(TagsOf(m.sink.log), [t]);
      assert DecodeTags([t]) == DecodeOne(t) + DecodeTags([t][1..]);
      assert TagsOf(m.sink.log) + [] == TagsOf(m.sink.log);
    }
  }

  lemma HeaderDecodesNothing(m: Mux)
    requires Intact(m)
    ensures Intact(EnsureHeader(m)) && Decoded(EnsureHeader(m)) == Decoded(m)
  {
    hide Intact, TagsOf;
    PutHeaderSeen(m);
  }

  lemma MetadataDecodesNothing(m: Mux, meta: bytes)
    requires Intact(m) && |meta| < TWO_24
    ensures Intact(WriteMetadata(m, meta).0) && Decoded(WriteMetadata(m, meta).0) == Decoded(m)
  {
    hide Intact, TagBytes, Decoded, EnsureHeader;
    HeaderDecodesNothing(m);
    var h := EnsureHeader(m);
    if h.header {
      TagDecodes(h, TagAt(Flv.TAG_SCRIPT, HeaderTs(h), meta));
    }
  }

  /** The part of a configuration that a decoder takes notice of: an empty one is none. */
  function VideoConfigured(avcc: bytes): seq<Flv.Decoded> {
    if avcc == [] then [] else [Flv.VideoConfig(avcc)]
  }

  function AudioConfigured(asc: bytes): seq<Flv.Decoded> {
    if asc == [] then [] else [Flv.AudioConfig(asc)]
  }

  /** What a call for a video configuration adds: once per muxer, and when header and body find room. */
  function VideoAdded(m: Mux, avcc: bytes): seq<Flv.Decoded> {
    if !m.videoSeq && 16 + |avcc| <= Room(m.sink) then VideoConfigured(avcc) else []
  }

  function AudioAdded(m: Mux, asc: bytes): seq<Flv.Decoded> {
    if !m.audioSeq && 13 + |asc| <= Room(m.sink) then AudioConfigured(asc) else []
  }

  lemma ConfigsDecode(avcc: bytes, asc: bytes, ts: int)
    ensures DecodeOne(TagAt(Flv.TAG_VIDEO, ts, Flv.VideoConfigBody(avcc))) == VideoConfigured(avcc)
    ensures DecodeOne(TagAt(Flv.TAG_AUDIO, ts, Flv.AudioConfigBody(asc))) == AudioConfigured(asc)
    ensures |Flv.VideoConfigBody(avcc)| == 5 + |avcc| && |Flv.AudioConfigBody(asc)| == 2 + |asc|
  {
    Flv.DecodeOtherBodies(Flv.ClampTs(ts), avcc, asc, []);
  }

  lemma VideoSequenceDecodes(m: Mux, avcc: bytes)
    requires Intact(m) && m.header && FitsConfig(Some(avcc))
    ensures var n := WriteVideoSequence(m, avcc).0;
      Intact(n) && n.header && Decoded(n) == Decoded(m) + VideoAdded(m, avcc)
  {
    hide Intact, TagBytes, Decoded, DecodeOne, Flv.VideoConfigBody, VideoConfigured;
    var t := TagAt(Flv.TAG_VIDEO, HeaderTs(m), Flv.VideoConfigBody(avcc));
    ConfigsDecode(avcc, [], HeaderTs(m));
    TagDecodes(m, t);
    if !m.videoSeq {
      var w := m.(sink := Put(m.sink, TagBytes(t)));
      SameBytes(w, WriteVideoSequence(m, avcc).0);
    }
  }

  lemma AudioSequenceDecodes(m: Mux, asc: bytes)
    requires Intact(m) && m.header && FitsConfig(Some(asc))
    ensures var n := WriteAudioSequence(m, asc).0;
      Intact(n) && n.header && Decoded(n) == Decoded(m) + AudioAdded(m, asc)
  {
    hide Intact, TagBytes, Decoded, DecodeOne, Flv.AudioConfigBody, AudioConfigured;
    var t := TagAt(Flv.TAG_AUDIO, HeaderTs(m), Flv.AudioConfigBody(asc));
    ConfigsDecode([], asc, HeaderTs(m));
    TagDecodes(m, t);
    if !m.audioSeq {
      var w := m.(sink := Put(m.sink, TagBytes(t)));
      SameBytes(w, WriteAudioSequence(m, asc).0);
    }
  }

  lemma SameBytes(m: Mux, n: Mux)
    requires n.sink == m.sink && n.header == m.header
    ensures Intact(n) == Intact(m) && Decoded(n) == Decoded(m)
  {
  }

  // ---------------------------------------------------------------------------------
  // Packets
  // ---------------------------------------------------------------------------------

  /** The configuration a packet brings along, when one is missing and finds room. */
  function ConfigAdded(m: Mux, p: MediaPacket): seq<Flv.Decoded> {
    if IsKeyframe(p) && AnnexBToAvcc(p.data).Some? then VideoAdded(m, AnnexBToAvcc(p.data).value)
    else if p.kind == Audio && AdtsToAsc(p.data).Some? then AudioAdded(m, AdtsToAsc(p.data).value)
    else []
  }

  lemma SniffDecodes(m: Mux, p: MediaPacket)
    requires Intact(m) && m.header && Fits(p)
    ensures var s := SniffConfig(m, p).0; Intact(s) && s.header && Decoded(s) == Decoded(m) + ConfigAdded(m, p)
  {
    hide Intact, Decoded, WriteVideoSequence, WriteAudioSequence, AnnexBToAvcc, AdtsToAsc, FindSets, H264.Prefixed;
    if !m.videoSeq && IsKeyframe(p) && AnnexBToAvcc(p.data).Some? {
      VideoSequenceDecodes(m, AnnexBToAvcc(p.data).value);
    } else if !m.audioSeq && p.kind == Audio && AdtsToAsc(p.data).Some? {
      AscFits(p);
      AudioSequenceDecodes(m, AdtsToAsc(p.data).value);
    }
  }

  lemma AscFits(p: MediaPacket)
    ensures FitsConfig(AdtsToAsc(p.data))
  {
  }

  lemma MediaDecodes(m: Mux, p: MediaPacket)
    requires Intact(m) && m.header && Fits(p)
    ensures var n := WriteMedia(m, p).0;
      && Intact(n) && n.header
      && Decoded(n) == Decoded(m) + if MediaShown(m, p) != [] then AsPackets(FrameAt(p, StampOf(m, p))) else []
  {
    hide Intact, Decoded, TagBytes, MediaTag, Fits, FrameSize, DecodeOne, FrameAt, Carries, StampedAt;
    var anchored := m.(origin := Some(OriginFor(m, p.dts)));
    SameBytes(m, anchored);
    if TrackTime(m, p).Some? {
      var ts := TrackTime(m, p).value;
      var t := MediaTag(m, p, ts);
      MediaTagShape(m, p, ts);
      MediaTagCarries(m, p, ts);
      FrameSizeIs(m, p, ts);
      StampedDecodes(t, p, StampOf(m, p));
      TagDecodes(m, t);
      SameBytes(m.(sink := Put(m.sink, TagBytes(t))), WriteMedia(m, p).0);
    }
  }

  lemma PacketDecodesTo(m: Mux, p: MediaPacket)
    requires Intact(m) && m.header && Fits(p)
    ensures var n := WritePacket(m, p).0;
      && Intact(n) && n.header
      && Decoded(n) == Decoded(m) + ConfigAdded(m, p)
                       + if PacketShown(m, p) != [] then AsPackets(FrameAt(p, StampOf(m, p))) else []
  {
    hide Intact, Decoded, SniffConfig, WriteMedia, Fits, ConfigAdded, MediaShown, FrameAt, TrackTime;
    SniffDecodes(m, p);
    LeadRoom(m, p);
    var s := SniffConfig(m, p);
    if s.1 == Done {
      MediaDecodes(s.0, p);
      SameStamp(m, s.0, p);
    }
  }

  lemma SameStamp(m: Mux, n: Mux, p: MediaPacket)
    requires n.origin == m.origin && n.lastVideo == m.lastVideo && n.lastAudio == m.lastAudio
    ensures StampOf(n, p) == StampOf(m, p)
  {
  }

  /** A packet, with the rebase to fall back on: its configuration, and its frame when its bytes find room. */
  function PacketAdded(m: Mux, p: MediaPacket): seq<Flv.Decoded> {
    ConfigAdded(m, p)
    + if Known(m, p) && LeadBytes(m, p) + 11 + FrameSize(p) <= Room(m.sink) then AsPackets(FrameAt(p, StampOf(m, p)))
      else []
  }

  lemma WriteOrRebaseDecodes(m: Mux, p: MediaPacket)
    requires Intact(m) && m.header && Fits(p)
    ensures var n := WriteOrRebase(m, p).0; Intact(n) && n.header && Decoded(n) == Decoded(m) + PacketAdded(m, p)
  {
    hide Intact, Decoded, WritePacket, Fits, PacketShown, FrameAt, TrackTime, StampOf, Known, LeadBytes, FrameSize,
         ConfigAdded;
    PacketDecodesTo(m, p);
    FrameShownIs(m, p);
    var first := WritePacket(m, p);
    if first.1 == Ordering {
      OrderingShowsNothing(m, p);
      OrderingLeaves(m, p);
      WriteSucceeds(m, p);
      BeforeFrameReady(m, p);
      var r := Rebase(first.0, p.kind, p.dts);
      SameBytes(first.0, r);
      PacketDecodesTo(r, p);
      NothingToBring(r, p);
      LeadRoom(m, p);
      RebasedStamp(m, first.0, p);
    }
  }

  lemma NothingToBring(m: Mux, p: MediaPacket)
    requires (IsKeyframe(p) ==> m.videoSeq) && (p.kind == Audio ==> m.audioSeq)
    ensures ConfigAdded(m, p) == []
  {
  }
}
