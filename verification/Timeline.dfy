/**
  Timestamps never go back. The statements are about what a peer sees: the tags the FLV parser
  cuts out of the bytes each connection accepted, all connections taken one after the other.
 */
module Timeline {
  import opened Bytes
  import opened Media
  import opened FlvTags
  import opened Mux
  import Flv
  import H264

  /** The tags a peer cuts out of the bytes of one connection. */
  function TagsOf(log: bytes): seq<FlvTag> {
    Feed(FRESH, log).tags
  }

  /** A tag that carries a frame of the given track, as opposed to a header-style tag. */
  predicate IsMedia(t: FlvTag, kind: MediaKind) {
    && t.mtype == (if kind == Video then Flv.TAG_VIDEO else Flv.TAG_AUDIO)
    && |t.body| >= 2 && t.body[1] == 1
  }

  predicate IsHeaderStyle(t: FlvTag) {
    !IsMedia(t, Video) && !IsMedia(t, Audio)
  }

  /** A frame never precedes an earlier frame of its track; a header never precedes any earlier frame. */
  ghost predicate MayFollow(earlier: FlvTag, t: FlvTag) {
    forall kind :: IsMedia(earlier, kind) && (IsMedia(t, kind) || IsHeaderStyle(t)) ==> earlier.ts <= t.ts
  }

  ghost predicate Ordered(tags: seq<FlvTag>) {
    forall i, j :: 0 <= i < j < |tags| ==> MayFollow(tags[i], tags[j])
  }

  /** Each frame sent so far lies at or below its track's watermark. */
  ghost predicate Marked(tags: seq<FlvTag>, lastVideo: Option<int>, lastAudio: Option<int>) {
    forall i :: 0 <= i < |tags| ==> MarkedTag(tags[i], lastVideo, lastAudio)
  }

  predicate MarkedTag(t: FlvTag, lastVideo: Option<int>, lastAudio: Option<int>) {
    (IsMedia(t, Video) ==> MarkedBy(t, lastVideo)) && (IsMedia(t, Audio) ==> MarkedBy(t, lastAudio))
  }

  predicate MarkedBy(t: FlvTag, mark: Option<int>) {
    mark.Some? && t.ts <= Flv.ClampTs(mark.value)
  }

  /** As long as no write failed, the connection's bytes end exactly after a tag. */
  predicate Intact(m: Mux) {
    !m.sink.dead ==>
      if m.header then Feed(FRESH, m.sink.log) == Fed(TagsOf(m.sink.log), CLEAN, false)
      else m.sink.log == []
  }

  ghost predicate Sound(past: seq<FlvTag>, m: Mux) {
    Intact(m) && Ordered(past + TagsOf(m.sink.log)) && Marked(past + TagsOf(m.sink.log), m.lastVideo, m.lastAudio)
  }

  /** What the format can carry: every body the packet may need stays under 2^24 bytes. */
  predicate Fits(p: MediaPacket) {
    match p.kind
    case Video =>
      && 5 + |H264.Prefixed(H264.Nals(p.data))| < TWO_24
      && (AnnexBToAvcc(p.data).Some? ==> FitsConfig(AnnexBToAvcc(p.data)))
    case Audio => 2 + |StripAdts(p.data)| < TWO_24
  }

  predicate FitsConfig(c: Option<bytes>) {
    c.Some? ==> 5 + |c.value| < TWO_24
  }

  // ---------------------------------------------------------------------------------
  // What a write does to the tags a peer sees
  // ---------------------------------------------------------------------------------

  lemma TagsOfPrefix(a: bytes, b: bytes)
    ensures TagsOf(a) <= TagsOf(a + b)
  {
    DrainExtends(FRESH.(buf := a), b);
    assert [] + a == a && [] + (a + b) == a + b;
  }

  /** A tag is seen exactly when the sink took its header and body, even if it failed in the trailing size. */
  lemma PutTagSeen(s: Sink, t: FlvTag)
    requires !s.dead && Encodable(t) && Feed(FRESH, s.log) == Fed(TagsOf(s.log), CLEAN, false)
    ensures var s' := Put(s, TagBytes(t));
            && (!s'.dead ==> Feed(FRESH, s'.log) == Fed(TagsOf(s.log) + [t], CLEAN, false))
            && TagsOf(s'.log) == TagsOf(s.log) + if 11 + |t.body| <= s.room then [t] else []
  {
    hide StepOf, TagBytes;
    var b, tags := TagBytes(t), TagsOf(s.log);
    TagLength(t);
    assert [] + s.log == s.log && [] + (s.log + b) == s.log + b && CLEAN.buf + b == b;
    DrainExtends(FRESH.(buf := s.log), b);
    ParseTag(t, []);
    assert b + [] == b;
    AfterAfter(tags, [t], Drain(CLEAN));
    assert Drain(CLEAN) == Fed([], CLEAN, false) by { CleanWaits(); }
    assert [t] + [] == [t] && tags + [t] + [] == tags + [t];
    assert Feed(FRESH, s.log + b) == Fed(tags + [t], CLEAN, false);
    if |b| > s.room {
      var cut := b[..s.room];
      ParseCut(t, s.room);
      assert CLEAN.buf + cut == cut && [] + (s.log + cut) == s.log + cut;
      DrainExtends(FRESH.(buf := s.log), cut);
    }
  }

  lemma TagLength(t: FlvTag)
    ensures |TagBytes(t)| == 15 + |t.body|
  {
  }

  lemma CleanWaits()
    ensures Drain(CLEAN) == Fed([], CLEAN, false)
  {
  }

  lemma NoBytesNoTags()
    ensures TagsOf([]) == []
  {
  }

  /** The file header shows a peer no tag, whole or cut short. */
  lemma PutHeaderSeen(m: Mux)
    requires Intact(m)
    ensures Intact(EnsureHeader(m)) && TagsOf(EnsureHeader(m).sink.log) == TagsOf(m.sink.log)
  {
    hide StepOf;
    if !m.header && !m.sink.dead {
      NoBytesNoTags();
      ParseHeader([]);
      assert FILE_HEADER + [] == FILE_HEADER && [] + FILE_HEADER == FILE_HEADER;
      CleanWaits();
      TagsOfPrefix([], FILE_HEADER);
      if |FILE_HEADER| > m.sink.room {
        var cut := FILE_HEADER[..m.sink.room];
        TagsOfPrefix(cut, FILE_HEADER[m.sink.room..]);
        assert cut + FILE_HEADER[m.sink.room..] == FILE_HEADER;
        assert [] + cut == cut;
      }
    }
  }

  // ---------------------------------------------------------------------------------
  // Each muxer call keeps the timeline sound
  // ---------------------------------------------------------------------------------

  lemma OrderedSnoc(tags: seq<FlvTag>, t: FlvTag)
    requires Ordered(tags) && forall i :: 0 <= i < |tags| ==> MayFollow(tags[i], t)
    ensures Ordered(tags + [t])
  {
  }

  /** Writing one tag that may follow all earlier ones, and whose track's watermark covers it. */
  lemma EmitSound(past: seq<FlvTag>, m: Mux, m': Mux, t: FlvTag)
    requires Intact(m) && m.header && m' == m.(sink := Put(m.sink, TagBytes(t))) && Encodable(t)
    requires Ordered(past + TagsOf(m.sink.log)) && Marked(past + TagsOf(m.sink.log), m.lastVideo, m.lastAudio)
    requires forall i :: 0 <= i < |past + TagsOf(m.sink.log)| ==> MayFollow((past + TagsOf(m.sink.log))[i], t)
    requires forall kind :: IsMedia(t, kind) ==> MarkedBy(t, Last(m, kind))
    ensures Sound(past, m')
    ensures !m'.sink.dead ==> TagsOf(m'.sink.log) == TagsOf(m.sink.log) + [t]
  {
    hide TagBytes, Drain, StepOf, IsMedia;
    if !m.sink.dead {
      var tags := past + TagsOf(m.sink.log);
      PutTagSeen(m.sink, t);
      TagLength(t);
      OrderedSnoc(tags, t);
      assert past + (TagsOf(m.sink.log) + [t]) == tags + [t];
      assert past + (TagsOf(m.sink.log) + []) == tags;
    }
  }

  /** Header-style tags sit at the higher watermark, never below zero. */
  lemma HeaderTagSound(past: seq<FlvTag>, m: Mux, mtype: byte, body: bytes)
    requires Sound(past, m) && m.header && |body| < TWO_24
    requires IsHeaderStyle(TagAt(mtype, HeaderTs(m), body))
    ensures Sound(past, WriteTag(m, mtype, HeaderTs(m), body))
    ensures !WriteTag(m, mtype, HeaderTs(m), body).sink.dead ==>
              TagsOf(WriteTag(m, mtype, HeaderTs(m), body).sink.log) ==
              TagsOf(m.sink.log) + [TagAt(mtype, HeaderTs(m), body)]
  {
    hide TagBytes, Drain, StepOf, IsMedia;
    var t := TagAt(mtype, HeaderTs(m), body);
    var tags := past + TagsOf(m.sink.log);
    forall i | 0 <= i < |tags| ensures MayFollow(tags[i], t) {
      forall kind | IsMedia(tags[i], kind) ensures tags[i].ts <= t.ts {
        assert MarkedTag(tags[i], m.lastVideo, m.lastAudio);
        assert MarkedBy(tags[i], Last(m, kind)) by {
          assert kind == Video || kind == Audio;
        }
      }
    }
    EmitSound(past, m, WriteTag(m, mtype, HeaderTs(m), body), t);
  }

  lemma HeaderSound(past: seq<FlvTag>, m: Mux)
    requires Sound(past, m)
    ensures Sound(past, EnsureHeader(m))
  {
    PutHeaderSeen(m);
  }

  lemma MetadataSound(past: seq<FlvTag>, m: Mux, meta: bytes)
    requires Sound(past, m) && |meta| < TWO_24
    ensures Sound(past, WriteMetadata(m, meta).0)
  {
    HeaderSound(past, m);
    var h := EnsureHeader(m);
    if h.header {
      HeaderTagSound(past, h, Flv.TAG_SCRIPT, meta);
    }
  }

  lemma VideoSequenceSound(past: seq<FlvTag>, m: Mux, avcc: bytes)
    requires Sound(past, m) && FitsConfig(Some(avcc))
    ensures Sound(past, WriteVideoSequence(m, avcc).0)
  {
    HeaderSound(past, m);
    var h := EnsureHeader(m);
    if h.header && !h.videoSeq {
      assert Flv.VideoConfigBody(avcc)[1] == 0;
      HeaderTagSound(past, h, Flv.TAG_VIDEO, Flv.VideoConfigBody(avcc));
    }
  }

  lemma AudioSequenceSound(past: seq<FlvTag>, m: Mux, asc: bytes)
    requires Sound(past, m) && FitsConfig(Some(asc))
    ensures Sound(past, WriteAudioSequence(m, asc).0)
  {
    HeaderSound(past, m);
    var h := EnsureHeader(m);
    if h.header && !h.audioSeq {
      assert Flv.AudioConfigBody(asc)[1] == 0;
      HeaderTagSound(past, h, Flv.TAG_AUDIO, Flv.AudioConfigBody(asc));
    }
  }

  lemma CodecsSound(past: seq<FlvTag>, m: Mux, avcc: Option<bytes>, asc: Option<bytes>)
    requires Sound(past, m) && FitsConfig(avcc) && FitsConfig(asc)
    ensures Sound(past, InitCodecs(m, avcc, asc).0)
  {
    hide WriteVideoSequence, WriteAudioSequence, Sound;
    if avcc.Some? {
      VideoSequenceSound(past, m, avcc.value);
    }
    var v := if avcc.Some? then WriteVideoSequence(m, avcc.value) else (m, Done);
    if asc.Some? {
      AudioSequenceSound(past, v.0, asc.value);
    }
  }

  lemma SniffSound(past: seq<FlvTag>, m: Mux, p: MediaPacket)
    requires Sound(past, m) && Fits(p)
    ensures Sound(past, SniffConfig(m, p).0)
  {
    hide WriteVideoSequence, WriteAudioSequence, Sound, H264.Nals, H264.Prefixed, FindSets;
    if !m.videoSeq && IsKeyframe(p) {
      if AnnexBToAvcc(p.data).Some? {
        VideoSequenceSound(past, m, AnnexBToAvcc(p.data).value);
      }
    } else if !m.audioSeq && p.kind == Audio {
      if AdtsToAsc(p.data).Some? {
        AudioSequenceSound(past, m, AdtsToAsc(p.data).value);
      }
    }
  }

  lemma MarkedHigher(tags: seq<FlvTag>, m: Mux, kind: MediaKind, ts: int)
    requires Marked(tags, m.lastVideo, m.lastAudio) && (Last(m, kind).Some? ==> Last(m, kind).value <= ts)
    ensures Marked(tags, SetLast(m, kind, ts).lastVideo, SetLast(m, kind, ts).lastAudio)
  {
    hide IsMedia;
    var n := SetLast(m, kind, ts);
    forall i | 0 <= i < |tags| ensures MarkedTag(tags[i], n.lastVideo, n.lastAudio) {
      assert MarkedTag(tags[i], m.lastVideo, m.lastAudio);
    }
  }

  lemma OneKind(t: FlvTag, kind: MediaKind, own: MediaKind)
    requires IsMedia(t, own) && (IsMedia(t, kind) || IsHeaderStyle(t))
    ensures kind == own
  {
  }

  lemma MediaTagShape(m: Mux, p: MediaPacket, ts: int)
    requires Fits(p)
    ensures Encodable(MediaTag(m, p, ts)) && IsMedia(MediaTag(m, p, ts), p.kind)
    ensures MediaTag(m, p, ts).ts == Flv.ClampTs(ts)
  {
  }

  /** A frame's tag lies at its track's new watermark, which is never below the old one. */
  lemma MediaSound(past: seq<FlvTag>, m: Mux, p: MediaPacket)
    requires Sound(past, m) && m.header && Fits(p)
    ensures Sound(past, WriteMedia(m, p).0)
  {
    hide H264.Nals, H264.Prefixed, FindSets, StripAdts, TagBytes, Drain, StepOf, Fits, MediaTag, Put;
    var anchored := m.(origin := Some(OriginFor(m, p.dts)));
    if TrackTime(m, p).Some? {
      var ts := TrackTime(m, p).value;
      var t := MediaTag(m, p, ts);
      var marked := SetLast(anchored, p.kind, ts);
      var tags := past + TagsOf(m.sink.log);
      MarkedHigher(tags, anchored, p.kind, ts);
      MediaTagShape(m, p, ts);
      forall i | 0 <= i < |tags| ensures MayFollow(tags[i], t) {
        forall kind | IsMedia(tags[i], kind) && (IsMedia(t, kind) || IsHeaderStyle(t)) ensures tags[i].ts <= t.ts {
          assert MarkedTag(tags[i], m.lastVideo, m.lastAudio);
          OneKind(t, kind, p.kind);
        }
      }
      EmitSound(past, marked, marked.(sink := Put(marked.sink, TagBytes(t))), t);
    }
  }

  lemma PacketSound(past: seq<FlvTag>, m: Mux, p: MediaPacket)
    requires Sound(past, m) && Fits(p)
    ensures Sound(past, WritePacket(m, p).0)
  {
    hide Sound, Fits, WriteMedia, SniffConfig, EnsureHeader;
    HeaderSound(past, m);
    var h := EnsureHeader(m);
    if h.header {
      SniffSound(past, h, p);
      var s := SniffConfig(h, p);
      if s.1 == Done {
        SniffKeepsHeader(h, p);
        MediaSound(past, s.0, p);
      }
    }
  }

  lemma SniffKeepsHeader(m: Mux, p: MediaPacket)
    requires m.header
    ensures SniffConfig(m, p).0.header
  {
  }

  lemma WriteOrRebaseSound(past: seq<FlvTag>, m: Mux, p: MediaPacket)
    requires Sound(past, m) && Fits(p)
    ensures Sound(past, WriteOrRebase(m, p).0)
  {
    hide Fits, WritePacket;
    PacketSound(past, m, p);
    var first := WritePacket(m, p);
    if first.1 == Ordering {
      var r := Rebase(first.0, p.kind, p.dts);
      PacketSound(past, r, p);
    }
  }

  /** A new connection that takes over the watermarks continues the old one's timeline. */
  lemma ReconnectSound(past: seq<FlvTag>, m: Mux, origin: Option<int>, sink: Sink)
    requires Sound(past, m) && sink.log == [] && !sink.dead
    ensures Sound(past + TagsOf(m.sink.log), RestoreTimebase(NewMux(sink), origin, m.lastVideo, m.lastAudio))
  {
    var tags := past + TagsOf(m.sink.log);
    assert TagsOf([]) == [];
    assert tags + [] == tags;
  }
}
