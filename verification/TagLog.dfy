/**
  What each muxer call adds to the tags a peer sees, whether it succeeds or fails: at most the headers
  and the one frame it was to write, and that frame exactly when the sink took its header and body.
 */
module TagLog {
  import opened Bytes
  import opened Media
  import opened FlvTags
  import opened Mux
  import opened MuxRoom
  import opened Timeline
  import Flv
  import H264

  predicate IsScript(t: FlvTag) {
    t.mtype == Flv.TAG_SCRIPT
  }

  /** The tags of a list that carry a frame. */
  function FramesOf(tags: seq<FlvTag>): seq<FlvTag> {
    if tags == [] then [] else (if IsHeaderStyle(tags[0]) then [] else [tags[0]]) + FramesOf(tags[1..])
  }

  lemma {:induction false} FramesAppend(a: seq<FlvTag>, b: seq<FlvTag>)
    ensures FramesOf(a + b) == FramesOf(a) + FramesOf(b)
  {
    hide IsMedia;
    if a == [] {
      assert a + b == b;
    } else {
      assert (a + b)[1..] == a[1..] + b;
      FramesAppend(a[1..], b);
    }
  }

  /** A tag the format carries; a script tag is the metadata, anything else has a body. */
  predicate Wellformed(t: FlvTag, meta: Option<bytes>) {
    Encodable(t) && if IsScript(t) then meta == Some(t.body) else t.body != []
  }

  ghost predicate AllWellformed(tags: seq<FlvTag>, meta: Option<bytes>) {
    forall i :: 0 <= i < |tags| ==> Wellformed(tags[i], meta)
  }

  /** `more` came on top of the tags seen before, and `frames` are the frames among it. */
  ghost predicate Grew(m: Mux, n: Mux, frames: seq<FlvTag>, meta: Option<bytes>) {
    exists more :: Added(m, n, more) && FramesOf(more) == frames && AllWellformed(more, meta)
  }

  predicate Added(m: Mux, n: Mux, more: seq<FlvTag>) {
    && Intact(n) && TagsOf(n.sink.log) == TagsOf(m.sink.log) + more && (m.sink.dead ==> n.sink.dead && more == [])
  }

  lemma GrewTwice(m: Mux, n: Mux, o: Mux, f: seq<FlvTag>, g: seq<FlvTag>, both: seq<FlvTag>, meta: Option<bytes>)
    requires Grew(m, n, f, meta) && Grew(n, o, g, meta) && f + g == both
    ensures Grew(m, o, both, meta)
  {
    hide TagsOf, FramesOf, Wellformed, Intact;
    var a :| Added(m, n, a) && FramesOf(a) == f && AllWellformed(a, meta);
    var b :| Added(n, o, b) && FramesOf(b) == g && AllWellformed(b, meta);
    FramesAppend(a, b);
    assert Added(m, o, a + b);
  }

  lemma GrewIntact(m: Mux, n: Mux, f: seq<FlvTag>, meta: Option<bytes>)
    requires Grew(m, n, f, meta)
    ensures Intact(n) && TagsOf(m.sink.log) <= TagsOf(n.sink.log) && (m.sink.dead ==> n.sink.dead)
  {
  }

  lemma SameSink(m: Mux, a: Mux, b: Mux, f: seq<FlvTag>, meta: Option<bytes>)
    requires Grew(m, a, f, meta) && a.sink == b.sink && a.header == b.header
    ensures Grew(m, b, f, meta)
  {
    hide TagsOf, FramesOf, Wellformed;
    var more :| Added(m, a, more) && FramesOf(more) == f && AllWellformed(more, meta);
    assert Added(m, b, more);
  }

  lemma Widen(m: Mux, n: Mux, f: seq<FlvTag>, meta: Option<bytes>)
    requires Grew(m, n, f, None)
    ensures Grew(m, n, f, meta)
  {
    hide TagsOf, FramesOf, Added;
    var more :| Added(m, n, more) && FramesOf(more) == f && AllWellformed(more, None);
    forall i | 0 <= i < |more| ensures Wellformed(more[i], meta) {
      assert Wellformed(more[i], None);
    }
  }

  lemma Unchanged(m: Mux, meta: Option<bytes>)
    requires Intact(m)
    ensures Grew(m, m, [], meta)
  {
    hide TagsOf;
    assert Added(m, m, []);
  }

  // ---------------------------------------------------------------------------------
  // Each call
  // ---------------------------------------------------------------------------------

  lemma TagGrew(m: Mux, t: FlvTag, meta: Option<bytes>)
    requires Intact(m) && m.header && Wellformed(t, meta)
    ensures var n := m.(sink := Put(m.sink, TagBytes(t)));
      Grew(m, n, if 11 + |t.body| <= Room(m.sink) && !IsHeaderStyle(t) then [t] else [], meta)
  {
    hide TagBytes, Drain, StepOf, FramesOf, TagsOf, IsMedia;
    FramesOfOne(t);
    var n := m.(sink := Put(m.sink, TagBytes(t)));
    var more := if 11 + |t.body| <= Room(m.sink) then [t] else [];
    if !m.sink.dead {
      PutTagSeen(m.sink, t);
      IntactAfter(m, t);
    }
    assert Added(m, n, more);
  }

  lemma FramesOfOne(t: FlvTag)
    ensures FramesOf([]) == [] && FramesOf([t]) == if IsHeaderStyle(t) then [] else [t]
  {
    hide IsMedia;
    assert [t][1..] == [];
  }

  lemma IntactAfter(m: Mux, t: FlvTag)
    requires Intact(m) && m.header && Encodable(t) && !m.sink.dead
    ensures Intact(m.(sink := Put(m.sink, TagBytes(t))))
  {
    hide TagBytes, Drain, StepOf;
    PutTagSeen(m.sink, t);
    TagLength(t);
  }

  lemma HeaderGrew(m: Mux)
    requires Intact(m)
    ensures Grew(m, EnsureHeader(m), [], None)
  {
    hide TagsOf;
    PutHeaderSeen(m);
    assert TagsOf(m.sink.log) + [] == TagsOf(m.sink.log);
    assert Added(m, EnsureHeader(m), []);
  }

  lemma HeaderTagGrew(m: Mux, t: FlvTag, meta: Option<bytes>)
    requires Intact(m) && m.header && Wellformed(t, meta) && IsHeaderStyle(t)
    ensures Grew(m, m.(sink := Put(m.sink, TagBytes(t))), [], meta)
  {
    hide TagBytes, IsMedia, Grew;
    TagGrew(m, t, meta);
  }

  lemma MetadataGrew(m: Mux, meta: bytes)
    requires Intact(m) && |meta| < TWO_24
    ensures Grew(m, WriteMetadata(m, meta).0, [], Some(meta))
  {
    hide TagsOf, TagBytes, Put, Grew;
    HeaderGrew(m);
    var h := EnsureHeader(m);
    Widen(m, h, [], Some(meta));
    if h.header {
      var t := TagAt(Flv.TAG_SCRIPT, HeaderTs(h), meta);
      GrewIntact(m, h, [], None);
      HeaderTagGrew(h, t, Some(meta));
      GrewTwice(m, h, h.(sink := Put(h.sink, TagBytes(t))), [], [], [], Some(meta));
    }
  }

  lemma VideoSequenceGrew(m: Mux, avcc: bytes)
    requires Intact(m) && FitsConfig(Some(avcc))
    ensures Grew(m, WriteVideoSequence(m, avcc).0, [], None)
  {
    hide TagsOf, TagBytes, Put, Grew;
    HeaderGrew(m);
    var h := EnsureHeader(m);
    if h.header && !h.videoSeq {
      var t := TagAt(Flv.TAG_VIDEO, HeaderTs(h), Flv.VideoConfigBody(avcc));
      GrewIntact(m, h, [], None);
      HeaderTagGrew(h, t, None);
      GrewTwice(m, h, h.(sink := Put(h.sink, TagBytes(t))), [], [], [], None);
      SameSink(m, h.(sink := Put(h.sink, TagBytes(t))), WriteVideoSequence(m, avcc).0, [], None);
    }
  }

  lemma AudioSequenceGrew(m: Mux, asc: bytes)
    requires Intact(m) && FitsConfig(Some(asc))
    ensures Grew(m, WriteAudioSequence(m, asc).0, [], None)
  {
    hide TagsOf, TagBytes, Put, Grew;
    HeaderGrew(m);
    var h := EnsureHeader(m);
    if h.header && !h.audioSeq {
      var t := TagAt(Flv.TAG_AUDIO, HeaderTs(h), Flv.AudioConfigBody(asc));
      GrewIntact(m, h, [], None);
      HeaderTagGrew(h, t, None);
      GrewTwice(m, h, h.(sink := Put(h.sink, TagBytes(t))), [], [], [], None);
      SameSink(m, h.(sink := Put(h.sink, TagBytes(t))), WriteAudioSequence(m, asc).0, [], None);
    }
  }

  lemma CodecsGrew(m: Mux, avcc: Option<bytes>, asc: Option<bytes>)
    requires Intact(m) && FitsConfig(avcc) && FitsConfig(asc)
    ensures Grew(m, InitCodecs(m, avcc, asc).0, [], None)
  {
    hide WriteVideoSequence, WriteAudioSequence, Grew, Intact;
    Unchanged(m, None);
    if avcc.Some? {
      VideoSequenceGrew(m, avcc.value);
    }
    var v := if avcc.Some? then WriteVideoSequence(m, avcc.value) else (m, Done);
    GrewIntact(m, v.0, [], None);
    if v.1 == Done && asc.Some? {
      AudioSequenceGrew(v.0, asc.value);
      GrewTwice(m, v.0, WriteAudioSequence(v.0, asc.value).0, [], [], [], None);
    }
  }

  lemma SniffGrew(m: Mux, p: MediaPacket)
    requires Intact(m) && Fits(p)
    ensures Grew(m, SniffConfig(m, p).0, [], None)
  {
    hide WriteVideoSequence, WriteAudioSequence, Grew, Intact, FindSets, AnnexBToAvcc;
    Unchanged(m, None);
    if !m.videoSeq && IsKeyframe(p) && AnnexBToAvcc(p.data).Some? {
      VideoSequenceGrew(m, AnnexBToAvcc(p.data).value);
    } else if !m.audioSeq && p.kind == Audio && AdtsToAsc(p.data).Some? {
      AudioSequenceGrew(m, AdtsToAsc(p.data).value);
    }
  }

  // ---------------------------------------------------------------------------------
  // Packets
  // ---------------------------------------------------------------------------------

  /** The frame a write shows the peer: there is one when its time is in tolerance and header and body find room. */
  function MediaShown(m: Mux, p: MediaPacket): seq<FlvTag> {
    if TrackTime(m, p).Some? && 11 + FrameSize(p) <= Room(m.sink) then [MediaTag(m, p, TrackTime(m, p).value)] else []
  }

  lemma MediaGrew(m: Mux, p: MediaPacket)
    requires Intact(m) && m.header && Fits(p)
    ensures Grew(m, WriteMedia(m, p).0, MediaShown(m, p), None)
  {
    hide TagsOf, TagBytes, Put, Grew, MediaTag, Fits, FrameSize, IsMedia;
    Unchanged(m, None);
    var anchored := m.(origin := Some(OriginFor(m, p.dts)));
    SameSink(m, m, anchored, [], None);
    if TrackTime(m, p).Some? {
      var ts := TrackTime(m, p).value;
      var t := MediaTag(m, p, ts);
      MediaTagShape(m, p, ts);
      FrameSizeIs(m, p, ts);
      MediaWellformed(t, p.kind);
      TagGrew(m, t, None);
      SameSink(m, m.(sink := Put(m.sink, TagBytes(t))), WriteMedia(m, p).0, MediaShown(m, p), None);
    }
  }

  lemma MediaWellformed(t: FlvTag, kind: MediaKind)
    requires IsMedia(t, kind) && Encodable(t)
    ensures Wellformed(t, None) && !IsHeaderStyle(t)
  {
  }

  function PacketShown(m: Mux, p: MediaPacket): seq<FlvTag> {
    if LeadOut(m, p) then MediaShown(BeforeFrame(m, p), p) else []
  }

  lemma PacketGrew(m: Mux, p: MediaPacket)
    requires Intact(m) && Fits(p)
    ensures Grew(m, WritePacket(m, p).0, PacketShown(m, p), None)
  {
    hide Grew, Intact, Fits, WriteMedia, SniffConfig, EnsureHeader, MediaShown;
    HeaderGrew(m);
    var h := EnsureHeader(m);
    GrewIntact(m, h, [], None);
    if h.header {
      SniffGrew(h, p);
      var s := SniffConfig(h, p);
      GrewTwice(m, h, s.0, [], [], [], None);
      if s.1 == Done {
        SniffKeepsHeader(h, p);
        GrewIntact(h, s.0, [], None);
        MediaGrew(s.0, p);
        GrewTwice(m, s.0, WriteMedia(s.0, p).0, [], MediaShown(s.0, p), MediaShown(s.0, p), None);
      }
    }
  }

  /** With the rebase: the frame shows at its own time, or on the watermark after the clock was re-anchored. */
  function FrameShown(m: Mux, p: MediaPacket): seq<FlvTag> {
    var first := WritePacket(m, p);
    if first.1 == Ordering then PacketShown(Rebase(first.0, p.kind, p.dts), p) else PacketShown(m, p)
  }

  lemma WriteOrRebaseGrew(m: Mux, p: MediaPacket)
    requires Intact(m) && Fits(p)
    ensures Grew(m, WriteOrRebase(m, p).0, FrameShown(m, p), None)
  {
    hide Grew, Fits, WritePacket, Intact, PacketShown;
    PacketGrew(m, p);
    var first := WritePacket(m, p);
    if first.1 == Ordering {
      OrderingShowsNothing(m, p);
      var r := Rebase(first.0, p.kind, p.dts);
      SameSink(m, first.0, r, [], None);
      GrewIntact(m, r, [], None);
      PacketGrew(r, p);
      GrewTwice(m, r, WritePacket(r, p).0, [], PacketShown(r, p), PacketShown(r, p), None);
    }
  }

  lemma OrderingShowsNothing(m: Mux, p: MediaPacket)
    requires WritePacket(m, p).1 == Ordering
    ensures PacketShown(m, p) == []
  {
    hide WritePacket, SniffConfig, EnsureHeader, TrackTime;
    WriteSucceeds(m, p);
    LeadRoom(m, p);
    TimeUnchanged(m, p);
  }

  lemma TimeUnchanged(m: Mux, p: MediaPacket)
    ensures LeadOut(m, p) ==> TrackTime(BeforeFrame(m, p), p) == TrackTime(m, p)
  {
    hide SniffConfig, EnsureHeader;
    LeadRoom(m, p);
  }

  /** A tag that carries a packet's frame: its track, its key flag and its data, whatever its times. */
  predicate Carries(t: FlvTag, p: MediaPacket) {
    && IsMedia(t, p.kind)
    && match p.kind
       case Video =>
         && |t.body| >= 5 && t.body[0] == (if p.isKey then 0x17 else 0x27)
         && t.body[5..] == H264.Prefixed(H264.Nals(p.data))
       case Audio => t.body == Flv.AudioBody(StripAdts(p.data))
  }

  /** Decode and presentation time on the connection's timeline. */
  datatype Stamp = Stamp(dts: int, pts: int)

  /** A packet within tolerance keeps its distance from the origin; another one lands on its track's watermark. */
  function StampOf(m: Mux, p: MediaPacket): Stamp {
    var high := AtLeastZero(Last(m, p.kind));
    if TrackTime(m, p).Some? then Stamp(TrackTime(m, p).value, p.pts - OriginFor(m, p.dts))
    else Stamp(high, p.pts - p.dts + high)
  }

  /** A tag with these times, as far as the format can carry them. */
  predicate StampedAt(t: FlvTag, p: MediaPacket, at: Stamp) {
    && t.ts == Flv.ClampTs(at.dts)
    && (p.kind == Video ==> |t.body| >= 5 && t.body[2..5] == Flv.CompositionTime(at.pts - at.dts))
  }

  lemma MediaTagCarries(m: Mux, p: MediaPacket, ts: int)
    requires Fits(p)
    ensures Carries(MediaTag(m, p, ts), p)
    ensures StampedAt(MediaTag(m, p, ts), p, Stamp(ts, p.pts - OriginFor(m, p.dts)))
  {
    hide H264.Nals, H264.Prefixed, FindSets, StripAdts;
  }

  lemma PacketShownIs(m: Mux, p: MediaPacket)
    requires Fits(p)
    ensures var shown := PacketShown(m, p);
      shown == [] || (|shown| == 1 && Carries(shown[0], p) && StampedAt(shown[0], p, StampOf(m, p)))
    ensures PacketShown(m, p) != [] <==>
      Known(m, p) && TrackTime(m, p).Some? && LeadBytes(m, p) + 11 + FrameSize(p) <= Room(m.sink)
  {
    hide SniffConfig, EnsureHeader, MediaTag, Carries, TrackTime, FrameSize, LeadBytes, Known, Fits, StampedAt;
    LeadRoom(m, p);
    TimeUnchanged(m, p);
    var s := BeforeFrame(m, p);
    if TrackTime(s, p).Some? {
      MediaTagCarries(s, p, TrackTime(s, p).value);
    }
  }

  /** The peer sees the frame exactly when its configuration is known and the bytes up to its trailing size fit. */
  lemma FrameShownIs(m: Mux, p: MediaPacket)
    requires Fits(p)
    ensures var shown := FrameShown(m, p);
      shown == [] || (|shown| == 1 && Carries(shown[0], p) && StampedAt(shown[0], p, StampOf(m, p)))
    ensures FrameShown(m, p) != [] <==> Known(m, p) && LeadBytes(m, p) + 11 + FrameSize(p) <= Room(m.sink)
  {
    hide WritePacket, PacketShown, Carries, TrackTime, FrameSize, Known, Fits, LeadBytes, StampOf, StampedAt;
    WriteSucceeds(m, p);
    LeadRoom(m, p);
    PacketShownIs(m, p);
    var first := WritePacket(m, p);
    if first.1 == Ordering {
      OrderingLeaves(m, p);
      var r := Rebase(first.0, p.kind, p.dts);
      RebasedTime(first.0, p);
      RebasedStamp(m, first.0, p);
      BeforeFrameReady(m, p);
      RebasedNeeds(BeforeFrame(m, p), r, p);
      NoLead(r, p);
      PacketShownIs(r, p);
    } else if TrackTime(m, p).None? {
      assert !LeadOut(m, p);
    }
  }

  /** The rebase gives the stamp that was meant for a packet out of tolerance. */
  lemma RebasedStamp(m: Mux, n: Mux, p: MediaPacket)
    requires TrackTime(m, p).None? && n.lastVideo == m.lastVideo && n.lastAudio == m.lastAudio
    ensures StampOf(Rebase(n, p.kind, p.dts), p) == StampOf(m, p)
  {
  }

  lemma BeforeFrameReady(m: Mux, p: MediaPacket)
    requires LeadOut(m, p)
    ensures var s := BeforeFrame(m, p); s.header && (IsKeyframe(p) ==> s.videoSeq) && (p.kind == Audio ==> s.audioSeq)
  {
    hide SniffConfig, EnsureHeader;
    LeadRoom(m, p);
  }

  lemma NoLead(r: Mux, p: MediaPacket)
    requires r.header && (IsKeyframe(p) ==> r.videoSeq) && (p.kind == Audio ==> r.audioSeq)
    ensures LeadBytes(r, p) == 0
  {
  }
}
