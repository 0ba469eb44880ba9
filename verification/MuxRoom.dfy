/**
  When a write succeeds, said of the state before it: the bytes a packet needs, the configuration it
  needs, and the time it can be given. The conditions look at no result of the muxer's own calls.
 */
module MuxRoom {
  import opened Bytes
  import opened Media
  import opened FlvTags
  import opened Mux
  import Flv
  import H264

  const TAG_OVERHEAD := 15

  /** The body of a packet's frame has the same size whatever its time. */
  function FrameSize(p: MediaPacket): nat {
    if p.kind == Video then 5 + |H264.Prefixed(H264.Nals(p.data))| else 2 + |StripAdts(p.data)|
  }

  predicate NeedsConfig(m: Mux, p: MediaPacket) {
    (!m.videoSeq && IsKeyframe(p)) || (!m.audioSeq && p.kind == Audio)
  }

  /** The body of the sequence header a packet could bring along. */
  function ConfigBody(p: MediaPacket): Option<bytes> {
    match p.kind
    case Video => if AnnexBToAvcc(p.data).Some? then Some(Flv.VideoConfigBody(AnnexBToAvcc(p.data).value)) else None
    case Audio => if AdtsToAsc(p.data).Some? then Some(Flv.AudioConfigBody(AdtsToAsc(p.data).value)) else None
  }

  /** The sequence header is out, not needed, or inside the packet. */
  predicate Known(m: Mux, p: MediaPacket) {
    NeedsConfig(m, p) ==> ConfigBody(p).Some?
  }

  /** What goes out before the frame: the file header and a sequence header, when they are missing. */
  function LeadBytes(m: Mux, p: MediaPacket): nat {
    (if m.header then 0 else |FILE_HEADER|) +
    (if NeedsConfig(m, p) && Known(m, p) then TAG_OVERHEAD + |ConfigBody(p).value| else 0)
  }

  function BytesFor(m: Mux, p: MediaPacket): nat {
    LeadBytes(m, p) + TAG_OVERHEAD + FrameSize(p)
  }

  /** The bytes a sink still takes. */
  function Room(s: Sink): nat {
    if s.dead then 0 else s.room
  }

  lemma PutRoom(s: Sink, b: bytes)
    requires b != []
    ensures !Put(s, b).dead <==> |b| <= Room(s)
    ensures !Put(s, b).dead ==> Room(Put(s, b)) == Room(s) - |b|
  {
  }

  lemma FrameSizeIs(m: Mux, p: MediaPacket, ts: int)
    ensures |MediaTag(m, p, ts).body| == FrameSize(p)
    ensures |TagBytes(MediaTag(m, p, ts))| == TAG_OVERHEAD + FrameSize(p)
  {
    hide H264.Nals, H264.Prefixed, StripAdts;
  }

  /** The muxer a packet's frame is written by, and the room it finds. */
  function BeforeFrame(m: Mux, p: MediaPacket): Mux {
    SniffConfig(EnsureHeader(m), p).0
  }

  predicate LeadOut(m: Mux, p: MediaPacket) {
    EnsureHeader(m).header && SniffConfig(EnsureHeader(m), p).1 == Done
  }

  lemma ConfigTagRoom(m: Mux, mtype: byte, body: bytes)
    ensures var w := WriteTag(m, mtype, HeaderTs(m), body);
      && (!w.sink.dead <==> TAG_OVERHEAD + |body| <= Room(m.sink))
      && (!w.sink.dead ==> Room(w.sink) == Room(m.sink) - (TAG_OVERHEAD + |body|))
      && w == m.(sink := w.sink)
  {
    hide Put;
    PutRoom(m.sink, TagBytes(TagAt(mtype, HeaderTs(m), body)));
  }

  lemma HeaderRoom(m: Mux)
    ensures var h := EnsureHeader(m);
      && (h.header <==> m.header || |FILE_HEADER| <= Room(m.sink))
      && (h.header ==> Room(h.sink) == Room(m.sink) - (if m.header then 0 else |FILE_HEADER|))
      && h == m.(header := h.header, sink := h.sink)
  {
    hide Put;
    PutRoom(m.sink, FILE_HEADER);
  }

  lemma SniffRoom(h: Mux, p: MediaPacket)
    requires h.header
    ensures var (s, r) := SniffConfig(h, p);
      && (r == Done <==> Known(h, p) && LeadBytes(h, p) <= Room(h.sink))
      && (r == Done ==> Room(s.sink) == Room(h.sink) - LeadBytes(h, p))
      && s == h.(videoSeq := s.videoSeq, audioSeq := s.audioSeq, avcc := s.avcc, asc := s.asc, sink := s.sink)
      && (r == Done ==> s.videoSeq == (h.videoSeq || IsKeyframe(p)) && s.audioSeq == (h.audioSeq || p.kind == Audio))
  {
    hide WriteTag, AnnexBToAvcc, AdtsToAsc, FILE_HEADER, Flv.VideoConfigBody, Flv.AudioConfigBody;
    if ConfigBody(p).Some? {
      ConfigTagRoom(h, if p.kind == Video then Flv.TAG_VIDEO else Flv.TAG_AUDIO, ConfigBody(p).value);
    }
  }

  /** Whether everything before the frame goes out, and the room it leaves. */
  lemma LeadRoom(m: Mux, p: MediaPacket)
    ensures LeadOut(m, p) <==> Known(m, p) && LeadBytes(m, p) <= Room(m.sink)
    ensures LeadOut(m, p) ==> Room(BeforeFrame(m, p).sink) == Room(m.sink) - LeadBytes(m, p)
    ensures LeadOut(m, p) ==> SameClock(BeforeFrame(m, p), WithLead(m, p))
  {
    hide SniffConfig;
    HeaderRoom(m);
    var h := EnsureHeader(m);
    if h.header {
      SniffRoom(h, p);
    }
  }

  /** The same but for the sink and the configurations kept for later. */
  predicate SameClock(a: Mux, b: Mux) {
    && a.header == b.header && a.videoSeq == b.videoSeq && a.audioSeq == b.audioSeq
    && a.origin == b.origin && a.lastVideo == b.lastVideo && a.lastAudio == b.lastAudio
  }

  function WithLead(m: Mux, p: MediaPacket): Mux {
    m.(header := true, videoSeq := m.videoSeq || IsKeyframe(p), audioSeq := m.audioSeq || p.kind == Audio)
  }

  /** The muxer's clock and flags once a packet is out. */
  function Advanced(m: Mux, p: MediaPacket): Mux
    requires TrackTime(m, p).Some?
  {
    SetLast(WithLead(m, p).(origin := Some(OriginFor(m, p.dts))), p.kind, TrackTime(m, p).value)
  }

  /** A packet is written exactly when its configuration is known, its time is in tolerance and its bytes find room. */
  lemma WriteSucceeds(m: Mux, p: MediaPacket)
    ensures WritePacket(m, p).1 == Done <==> Known(m, p) && TrackTime(m, p).Some? && BytesFor(m, p) <= Room(m.sink)
    ensures WritePacket(m, p).1 == Done ==>
      && SameClock(WritePacket(m, p).0, Advanced(m, p))
      && Room(WritePacket(m, p).0.sink) == Room(m.sink) - BytesFor(m, p)
    ensures WritePacket(m, p).1 == Ordering <==> LeadOut(m, p) && TrackTime(m, p).None?
  {
    hide SniffConfig, EnsureHeader, Put, TagBytes, MediaTag, FrameSize, LeadBytes, Known;
    LeadRoom(m, p);
    LeadNotOrdering(m, p);
    if LeadOut(m, p) {
      var s := BeforeFrame(m, p);
      assert TrackTime(s, p) == TrackTime(m, p);
      if TrackTime(s, p).Some? {
        var ts := TrackTime(s, p).value;
        FrameSizeIs(s, p, ts);
        PutRoom(s.sink, TagBytes(MediaTag(s, p, ts)));
      }
    }
  }

  lemma LeadNotOrdering(m: Mux, p: MediaPacket)
    ensures EnsureHeader(m).header ==> SniffConfig(EnsureHeader(m), p).1 != Ordering
  {
    SequencesKeepHeader(m, p);
  }

  /** With the rebase to fall back on, time is no condition any more. */
  lemma WriteOrRebaseSucceeds(m: Mux, p: MediaPacket)
    ensures WriteOrRebase(m, p).1 == Done <==> Known(m, p) && BytesFor(m, p) <= Room(m.sink)
  {
    hide WritePacket, TrackTime, BytesFor, Known;
    WriteSucceeds(m, p);
    LeadRoom(m, p);
    BytesSplit(m, p);
    var first := WritePacket(m, p);
    if first.1 == Ordering {
      OrderingLeaves(m, p);
      var r := Rebase(first.0, p.kind, p.dts);
      RebasedTime(first.0, p);
      RebasedNeeds(BeforeFrame(m, p), r, p);
      WriteSucceeds(r, p);
    }
  }

  lemma BytesSplit(m: Mux, p: MediaPacket)
    ensures BytesFor(m, p) == LeadBytes(m, p) + TAG_OVERHEAD + FrameSize(p)
  {
  }

  lemma OrderingLeaves(m: Mux, p: MediaPacket)
    requires WritePacket(m, p).1 == Ordering
    ensures WritePacket(m, p).0 == BeforeFrame(m, p).(origin := Some(OriginFor(BeforeFrame(m, p), p.dts)))
  {
    hide SniffConfig, EnsureHeader, Put, MediaTag;
    LeadNotOrdering(m, p);
  }

  lemma RebasedTime(m: Mux, p: MediaPacket)
    ensures TrackTime(Rebase(m, p.kind, p.dts), p).Some?
  {
  }

  lemma RebasedNeeds(s: Mux, r: Mux, p: MediaPacket)
    requires s.header && (IsKeyframe(p) ==> s.videoSeq) && (p.kind == Audio ==> s.audioSeq)
    requires r == s.(origin := r.origin)
    ensures Known(r, p) && BytesFor(r, p) == TAG_OVERHEAD + FrameSize(p)
  {
  }

  // ---------------------------------------------------------------------------------
  // Header-style tags
  // ---------------------------------------------------------------------------------

  function HeaderBytes(m: Mux): nat {
    if m.header then 0 else |FILE_HEADER|
  }

  lemma MetadataRoom(m: Mux, meta: bytes)
    ensures var (n, r), size := WriteMetadata(m, meta), HeaderBytes(m) + TAG_OVERHEAD + |meta|;
      && (r == Done <==> size <= Room(m.sink))
      && (r == Done ==> n == m.(header := true, sink := n.sink) && Room(n.sink) == Room(m.sink) - size)
  {
    hide Put, TagBytes, FILE_HEADER;
    HeaderRoom(m);
    ConfigTagRoom(EnsureHeader(m), Flv.TAG_SCRIPT, meta);
  }

  lemma VideoSequenceRoom(m: Mux, avcc: bytes)
    ensures var (n, r) := WriteVideoSequence(m, avcc);
      var size := HeaderBytes(m) + if m.videoSeq then 0 else TAG_OVERHEAD + |Flv.VideoConfigBody(avcc)|;
      && (r == Done <==> size <= Room(m.sink))
      && (r == Done ==>
            && n == m.(header := true, videoSeq := true, avcc := n.avcc, sink := n.sink)
            && Room(n.sink) == Room(m.sink) - size)
  {
    hide Put, TagBytes, FILE_HEADER, Flv.VideoConfigBody;
    HeaderRoom(m);
    ConfigTagRoom(EnsureHeader(m), Flv.TAG_VIDEO, Flv.VideoConfigBody(avcc));
  }

  lemma AudioSequenceRoom(m: Mux, asc: bytes)
    ensures var (n, r) := WriteAudioSequence(m, asc);
      var size := HeaderBytes(m) + if m.audioSeq then 0 else TAG_OVERHEAD + |Flv.AudioConfigBody(asc)|;
      && (r == Done <==> size <= Room(m.sink))
      && (r == Done ==>
            && n == m.(header := true, audioSeq := true, asc := n.asc, sink := n.sink)
            && Room(n.sink) == Room(m.sink) - size)
  {
    hide Put, TagBytes, FILE_HEADER, Flv.AudioConfigBody;
    HeaderRoom(m);
    ConfigTagRoom(EnsureHeader(m), Flv.TAG_AUDIO, Flv.AudioConfigBody(asc));
  }

  // ---------------------------------------------------------------------------------
  // Batches without a second try
  // ---------------------------------------------------------------------------------

  /** Each packet's configuration is known and its time in tolerance when its turn comes. */
  predicate Acceptable(m: Mux, ps: seq<MediaPacket>)
    decreases |ps|
  {
    ps != [] ==> Known(m, ps[0]) && TrackTime(m, ps[0]).Some? && Acceptable(Advanced(m, ps[0]), ps[1..])
  }

  function BytesForAll(m: Mux, ps: seq<MediaPacket>): nat
    requires Acceptable(m, ps)
    decreases |ps|
  {
    if ps == [] then 0 else BytesFor(m, ps[0]) + BytesForAll(Advanced(m, ps[0]), ps[1..])
  }

  lemma {:induction false} SameClockBatch(a: Mux, b: Mux, ps: seq<MediaPacket>)
    requires SameClock(a, b)
    ensures Acceptable(a, ps) == Acceptable(b, ps)
    ensures Acceptable(a, ps) ==> BytesForAll(a, ps) == BytesForAll(b, ps)
    decreases |ps|
  {
    hide ConfigBody, FrameSize;
    if ps != [] && TrackTime(a, ps[0]).Some? {
      SameClockBatch(Advanced(a, ps[0]), Advanced(b, ps[0]), ps[1..]);
    }
  }
}
