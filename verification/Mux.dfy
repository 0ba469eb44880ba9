/**
  The FLV muxer: packets become tags on a byte sink. `Mux` is the muxer's state as a value and
  the functions on it say what each call does; `FlvMuxer` is the same object with its fields
  updated in place. Times are unbounded integers; `None` is the source's "nothing written yet"
  watermark.
 */
module Mux {
  import opened Bytes
  import opened Media
  import opened FlvTags
  import Flv
  import H264

  const REORDER_TOLERANCE_MS := 100

  // ---------------------------------------------------------------------------------
  // A fail-stop byte sink
  // ---------------------------------------------------------------------------------

  /** What was accepted so far, how much more will be, and whether a write has failed yet. */
  datatype Sink = Sink(log: bytes, room: nat, dead: bool)

  function Put(s: Sink, b: bytes): Sink {
    if s.dead then s
    else if |b| <= s.room then Sink(s.log + b, s.room - |b|, false)
    else Sink(s.log + b[..s.room], 0, true)
  }

  class ByteSink {
    var log: bytes
    var room: nat
    var dead: bool

    function View(): Sink
      reads this
    {
      Sink(log, room, dead)
    }

    constructor (room: nat)
      ensures View() == Sink([], room, false)
    {
      this.log, this.room, this.dead := [], room, false;
    }

    method WriteAll(b: bytes) returns (ok: bool)
      modifies this
      ensures View() == Put(old(View()), b) && ok == !dead
    {
      if dead {
        return false;
      }
      if |b| <= room {
        log, room := log + b, room - |b|;
        return true;
      }
      log, room, dead := log + b[..room], 0, true;
      return false;
    }
  }

  /** Writing in pieces is writing at once, for any place the sink may fail at. */
  lemma PutPieces(s: Sink, a: bytes, b: bytes)
    ensures Put(Put(s, a), b) == Put(s, a + b)
  {
    if !s.dead {
      if |a| <= s.room {
        assert s.log + a + b == s.log + (a + b);
        if |a + b| > s.room {
          assert (a + b)[..s.room] == a + b[..s.room - |a|];
          assert s.log + a + b[..s.room - |a|] == s.log + (a + b)[..s.room];
        }
      } else {
        assert (a + b)[..s.room] == a[..s.room];
      }
    }
  }

  // ---------------------------------------------------------------------------------
  // The muxer's state and its operations
  // ---------------------------------------------------------------------------------

  datatype Outcome = Done | Io | Config | Ordering

  datatype Mux = Mux(
    header: bool, videoSeq: bool, audioSeq: bool,
    origin: Option<int>, lastVideo: Option<int>, lastAudio: Option<int>,
    avcc: Option<bytes>, asc: Option<bytes>,
    sink: Sink)

  function NewMux(sink: Sink): Mux {
    Mux(false, false, false, None, None, None, None, None, sink)
  }

  function Last(m: Mux, kind: MediaKind): Option<int> {
    if kind == Video then m.lastVideo else m.lastAudio
  }

  function SetLast(m: Mux, kind: MediaKind, ts: int): Mux {
    if kind == Video then m.(lastVideo := Some(ts)) else m.(lastAudio := Some(ts))
  }

  /** A watermark, no lower than zero. */
  function AtLeastZero(mark: Option<int>): (t: int)
    ensures t >= 0
  {
    if mark.Some? then Max(mark.value, 0) else 0
  }

  function HeaderTs(m: Mux): int {
    Max(AtLeastZero(m.lastVideo), AtLeastZero(m.lastAudio))
  }

  function RestoreTimebase(m: Mux, origin: Option<int>, lastVideo: Option<int>, lastAudio: Option<int>): Mux {
    m.(origin := origin, lastVideo := lastVideo, lastAudio := lastAudio)
  }

  function Rebase(m: Mux, kind: MediaKind, dts: int): Mux {
    m.(origin := Some(dts - AtLeastZero(Last(m, kind))))
  }

  function EnsureHeader(m: Mux): Mux {
    if m.header then m
    else
      var s := Put(m.sink, FILE_HEADER);
      m.(sink := s, header := !s.dead)
  }

  function TagAt(mtype: byte, ts: int, body: bytes): FlvTag {
    FlvTag(mtype, Flv.ClampTs(ts), body)
  }

  function WriteTag(m: Mux, mtype: byte, ts: int, body: bytes): Mux {
    m.(sink := Put(m.sink, TagBytes(TagAt(mtype, ts, body))))
  }

  function Written(m: Mux): (Mux, Outcome) {
    (m, if m.sink.dead then Io else Done)
  }

  function WriteMetadata(m: Mux, meta: bytes): (Mux, Outcome) {
    var h := EnsureHeader(m);
    if !h.header then (h, Io) else Written(WriteTag(h, Flv.TAG_SCRIPT, HeaderTs(h), meta))
  }

  function WriteVideoSequence(m: Mux, avcc: bytes): (Mux, Outcome) {
    var h := EnsureHeader(m);
    if !h.header then (h, Io)
    else if h.videoSeq then (h, Done)
    else
      var w := WriteTag(h, Flv.TAG_VIDEO, HeaderTs(h), Flv.VideoConfigBody(avcc));
      if w.sink.dead then (w, Io) else (w.(videoSeq := true, avcc := Some(avcc)), Done)
  }

  function WriteAudioSequence(m: Mux, asc: bytes): (Mux, Outcome) {
    var h := EnsureHeader(m);
    if !h.header then (h, Io)
    else if h.audioSeq then (h, Done)
    else
      var w := WriteTag(h, Flv.TAG_AUDIO, HeaderTs(h), Flv.AudioConfigBody(asc));
      if w.sink.dead then (w, Io) else (w.(audioSeq := true, asc := Some(asc)), Done)
  }

  function InitCodecs(m: Mux, avcc: Option<bytes>, asc: Option<bytes>): (Mux, Outcome) {
    var v := if avcc.Some? then WriteVideoSequence(m, avcc.value) else (m, Done);
    if v.1 != Done || asc.None? then v else WriteAudioSequence(v.0, asc.value)
  }

  /** The sequence header a packet needs before it, when none was written: taken from the packet. */
  function SniffConfig(m: Mux, p: MediaPacket): (Mux, Outcome) {
    if !m.videoSeq && IsKeyframe(p) then
      match AnnexBToAvcc(p.data)
      case None => (m, Config)
      case Some(avcc) => WriteVideoSequence(m, avcc)
    else if !m.audioSeq && p.kind == Audio then
      match AdtsToAsc(p.data)
      case None => (m, Config)
      case Some(asc) => WriteAudioSequence(m, asc)
    else (m, Done)
  }

  /** The origin once a packet has been seen. */
  function OriginFor(m: Mux, dts: int): int {
    if m.origin.Some? then m.origin.value else dts
  }

  /** The decode time a packet gets, unless it lies too far before its own track's watermark. */
  function TrackTime(m: Mux, p: MediaPacket): Option<int> {
    var ts := p.dts - OriginFor(m, p.dts);
    var mark := Last(m, p.kind);
    if mark.None? || ts >= mark.value then Some(ts)
    else if mark.value - ts > REORDER_TOLERANCE_MS then None
    else mark
  }

  /** The media tag of a packet that decodes at `ts`. */
  function MediaTag(m: Mux, p: MediaPacket, ts: int): FlvTag {
    match p.kind
    case Video =>
      var cts := p.pts - OriginFor(m, p.dts) - ts;
      TagAt(Flv.TAG_VIDEO, ts, Flv.VideoBody(p.isKey, cts, H264.Nals(p.data)))
    case Audio =>
      TagAt(Flv.TAG_AUDIO, ts, Flv.AudioBody(StripAdts(p.data)))
  }

  /** Time-stamps and writes a packet whose sequence header is out. */
  function WriteMedia(m: Mux, p: MediaPacket): (Mux, Outcome) {
    var anchored := m.(origin := Some(OriginFor(m, p.dts)));
    match TrackTime(m, p)
    case None => (anchored, Ordering)
    case Some(ts) =>
      var marked := SetLast(anchored, p.kind, ts);
      Written(marked.(sink := Put(marked.sink, TagBytes(MediaTag(m, p, ts)))))
  }

  function WritePacket(m: Mux, p: MediaPacket): (Mux, Outcome) {
    var h := EnsureHeader(m);
    if !h.header then (h, Io)
    else
      var s := SniffConfig(h, p);
      if s.1 != Done then s else WriteMedia(s.0, p)
  }

  /** The escape hatch of both clients: on an ordering error re-anchor the clock and try again. */
  function WriteOrRebase(m: Mux, p: MediaPacket): (Mux, Outcome) {
    var first := WritePacket(m, p);
    if first.1 == Ordering then WritePacket(Rebase(first.0, p.kind, p.dts), p) else first
  }

  /** After the rebase the packet lands on its track's watermark: the retry never fails on order. */
  lemma RetryNeverOrdering(m: Mux, p: MediaPacket)
    ensures WriteOrRebase(m, p).1 != Ordering
  {
    hide Put, TagBytes, AnnexBToAvcc, AdtsToAsc, MediaTag, WriteVideoSequence, WriteAudioSequence;
    var first := WritePacket(m, p);
    if first.1 == Ordering {
      SequencesKeepHeader(m, p);
      var r := Rebase(first.0, p.kind, p.dts);
      assert r.header && EnsureHeader(r) == r;
      assert SniffConfig(r, p) == (r, Done);
      assert TrackTime(r, p) == Some(AtLeastZero(Last(r, p.kind)));
    }
  }

  lemma SequencesKeepHeader(m: Mux, p: MediaPacket)
    ensures var s := SniffConfig(EnsureHeader(m), p);
            EnsureHeader(m).header && s.1 == Done ==>
              && s.0.header
              && (IsKeyframe(p) ==> s.0.videoSeq) && (p.kind == Audio ==> s.0.audioSeq)
    ensures EnsureHeader(m).header ==> SniffConfig(EnsureHeader(m), p).1 != Ordering
  {
    hide Put, TagBytes, AnnexBToAvcc, AdtsToAsc;
  }

  /** A packet up to 100 ms behind its track goes on the watermark, one further behind is refused. */
  lemma ToleranceIs(m: Mux, p: MediaPacket)
    ensures var ts, mark := p.dts - OriginFor(m, p.dts), Last(m, p.kind);
      && (TrackTime(m, p).None? <==> mark.Some? && ts < mark.value - 100)
      && (TrackTime(m, p).Some? ==> TrackTime(m, p).value == if mark.Some? then Max(ts, mark.value) else ts)
  {
  }

  /** Header-style tags have the least time that is neither negative nor before a frame of either track. */
  lemma HeaderTsIsLeast(m: Mux, t: int)
    ensures HeaderTs(m) >= 0
    ensures forall kind :: Last(m, kind).Some? ==> HeaderTs(m) >= Last(m, kind).value
    ensures t >= 0 && (forall kind :: Last(m, kind).Some? ==> t >= Last(m, kind).value) ==> t >= HeaderTs(m)
  {
    assert Last(m, Video) == m.lastVideo && Last(m, Audio) == m.lastAudio;
  }

  // ---------------------------------------------------------------------------------
  // The muxer in place
  // ---------------------------------------------------------------------------------

  class FlvMuxer {
    const sink: ByteSink
    var header: bool
    var videoSeq: bool
    var audioSeq: bool
    var origin: Option<int>
    var lastVideo: Option<int>
    var lastAudio: Option<int>
    var avcc: Option<bytes>
    var asc: Option<bytes>

    function View(): Mux
      reads this, sink
    {
      Mux(header, videoSeq, audioSeq, origin, lastVideo, lastAudio, avcc, asc, sink.View())
    }

    constructor (sink: ByteSink)
      ensures this.sink == sink && View() == NewMux(sink.View())
    {
      this.sink := sink;
      header, videoSeq, audioSeq := false, false, false;
      origin, lastVideo, lastAudio, avcc, asc := None, None, None, None, None;
    }

    method SetTimebase(origin: Option<int>, lastVideo: Option<int>, lastAudio: Option<int>)
      modifies this
      ensures View() == RestoreTimebase(old(View()), origin, lastVideo, lastAudio)
    {
      this.origin, this.lastVideo, this.lastAudio := origin, lastVideo, lastAudio;
    }

    /** Re-anchors the origin so that `dts` falls on its track's watermark. */
    method Reanchor(kind: MediaKind, dts: int)
      modifies this
      ensures View() == Rebase(old(View()), kind, dts)
    {
      origin := Some(dts - AtLeastZero(if kind == Video then lastVideo else lastAudio));
    }

    method PutHeader() returns (ok: bool)
      modifies this, sink
      ensures View() == EnsureHeader(old(View())) && ok == header
    {
      if header {
        return true;
      }
      ok := sink.WriteAll(FILE_HEADER);
      header := ok;
    }

    /** Header, body and trailing size go out as three writes. */
    method PutTag(mtype: byte, ts: int, body: bytes) returns (ok: bool)
      modifies sink
      ensures View() == WriteTag(old(View()), mtype, ts, body) && ok == !sink.dead
    {
      ghost var before := sink.View();
      var tag := TagAt(mtype, ts, body);
      PutPieces(before, TagHeader(tag), body);
      PutPieces(before, TagHeader(tag) + body, Be32(11 + |body|));
      ok := sink.WriteAll(TagHeader(tag));
      if ok {
        ok := sink.WriteAll(body);
      }
      if ok {
        ok := sink.WriteAll(Be32(11 + |body|));
      }
    }

    method PutMetadata(meta: bytes) returns (r: Outcome)
      modifies this, sink
      ensures (View(), r) == WriteMetadata(old(View()), meta)
    {
      var ok := PutHeader();
      if !ok {
        return Io;
      }
      ok := PutTag(Flv.TAG_SCRIPT, HeaderTs(View()), meta);
      return if ok then Done else Io;
    }

    method PutVideoSequence(avcc: bytes) returns (r: Outcome)
      modifies this, sink
      ensures (View(), r) == WriteVideoSequence(old(View()), avcc)
    {
      var ok := PutHeader();
      if !ok {
        return Io;
      }
      if videoSeq {
        return Done;
      }
      ok := PutTag(Flv.TAG_VIDEO, HeaderTs(View()), Flv.VideoConfigBody(avcc));
      if !ok {
        return Io;
      }
      videoSeq, this.avcc := true, Some(avcc);
      return Done;
    }

    method PutAudioSequence(asc: bytes) returns (r: Outcome)
      modifies this, sink
      ensures (View(), r) == WriteAudioSequence(old(View()), asc)
    {
      var ok := PutHeader();
      if !ok {
        return Io;
      }
      if audioSeq {
        return Done;
      }
      ok := PutTag(Flv.TAG_AUDIO, HeaderTs(View()), Flv.AudioConfigBody(asc));
      if !ok {
        return Io;
      }
      audioSeq, this.asc := true, Some(asc);
      return Done;
    }

    method PutCodecs(avcc: Option<bytes>, asc: Option<bytes>) returns (r: Outcome)
      modifies this, sink
      ensures (View(), r) == InitCodecs(old(View()), avcc, asc)
    {
      r := Done;
      if avcc.Some? {
        r := PutVideoSequence(avcc.value);
        if r != Done {
          return;
        }
      }
      if asc.Some? {
        r := PutAudioSequence(asc.value);
      }
    }

    /** Emits the sequence header a packet needs, when none was written yet. */
    method PutConfigFor(p: MediaPacket) returns (r: Outcome)
      requires header
      modifies this, sink
      ensures (View(), r) == SniffConfig(old(View()), p)
    {
      hide AnnexBToAvcc, AdtsToAsc;
      if !videoSeq && p.kind == Video && p.isKey {
        var found := AnnexBToAvcc(p.data);
        if found.None? {
          return Config;
        }
        r := PutVideoSequence(found.value);
        return;
      }
      if !audioSeq && p.kind == Audio {
        var found := AdtsToAsc(p.data);
        if found.None? {
          return Config;
        }
        r := PutAudioSequence(found.value);
        return;
      }
      return Done;
    }

    /** Time-stamps a packet against the origin and its own track, and writes its tag. */
    method PutMedia(p: MediaPacket) returns (r: Outcome)
      modifies this, sink
      ensures (View(), r) == WriteMedia(old(View()), p)
    {
      hide H264.Nals, StripAdts, Put, TagBytes, Flv.ClampTs, Flv.VideoBody, Flv.AudioBody;
      if origin.None? {
        origin := Some(p.dts);
      }
      var ts := p.dts - origin.value;
      var mark := if p.kind == Video then lastVideo else lastAudio;
      if mark.Some? && ts < mark.value {
        if mark.value - ts > REORDER_TOLERANCE_MS {
          return Ordering;
        }
        ts := mark.value;
      }
      if p.kind == Video {
        lastVideo := Some(ts);
      } else {
        lastAudio := Some(ts);
      }
      var cts := p.pts - origin.value - ts;
      var ok;
      if p.kind == Video {
        var nals := H264.SplitAnnexB(p.data);
        ok := PutTag(Flv.TAG_VIDEO, ts, Flv.VideoBody(p.isKey, cts, nals));
      } else {
        ok := PutTag(Flv.TAG_AUDIO, ts, Flv.AudioBody(StripAdts(p.data)));
      }
      return if ok then Done else Io;
    }

    /** Muxes one packet: file header, sequence header, time stamp, tag. */
    method PutPacket(p: MediaPacket) returns (r: Outcome)
      modifies this, sink
      ensures (View(), r) == WritePacket(old(View()), p)
    {
      hide WriteMedia, SniffConfig;
      var ok := PutHeader();
      if !ok {
        return Io;
      }
      r := PutConfigFor(p);
      if r == Done {
        r := PutMedia(p);
      }
    }

    /** The clients' loop body: one retry after re-anchoring, on an ordering error only. */
    method PutOrReanchor(p: MediaPacket) returns (r: Outcome)
      modifies this, sink
      ensures (View(), r) == WriteOrRebase(old(View()), p)
      ensures r != Ordering
    {
      hide WritePacket, Rebase;
      RetryNeverOrdering(View(), p);
      r := PutPacket(p);
      if r == Ordering {
        Reanchor(p.kind, p.dts);
        r := PutPacket(p);
      }
    }
  }
}
