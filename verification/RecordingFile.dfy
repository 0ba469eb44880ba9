/**
  What a recording holds: over any calls its file decodes to the configurations it was given and the
  frames of the packets it was given, in order, as far as the sink took them.
 */
module RecordingFile {
  import opened Bytes
  import opened Media
  import opened FlvTags
  import opened Mux
  import opened MuxRoom
  import opened Timeline
  import opened TagLog
  import opened Decoding
  import opened Recording
  import Flv

  /** The bytes of the metadata that is still owed, with the file header before it. */
  function MetadataBytes(r: Recorder): nat {
    if r.metadataWritten then 0 else HeaderBytes(r.m) + TAG_OVERHEAD + |r.meta|
  }

  /** The muxer behind the metadata, but for its sink. */
  function WithHeader(r: Recorder): Mux {
    r.m.(header := true)
  }

  /** Said before the call: whether a packet that is not ignored is recorded. */
  predicate Accepted(r: Recorder, p: MediaPacket) {
    Known(WithHeader(r), p) && MetadataBytes(r) + BytesFor(WithHeader(r), p) <= Room(r.m.sink)
  }

  /** The metadata is written behind the header. */
  predicate Begun(r: Recorder) {
    r.metadataWritten ==> r.m.header
  }

  lemma MetadataOut(r: Recorder)
    requires Begun(r)
    ensures var (s, ok) := EnsureMetadata(r);
      && (ok <==> MetadataBytes(r) <= Room(r.m.sink))
      && (ok ==> s.m == WithHeader(r).(sink := s.m.sink) && Room(s.m.sink) == Room(r.m.sink) - MetadataBytes(r))
  {
    hide WriteMetadata, HeaderBytes, Room;
    RoomIsNat(r.m.sink);
    MetadataRoom(r.m, r.meta);
  }

  lemma RoomIsNat(s: Sink)
    ensures Room(s) >= 0
  {
  }

  lemma NeedsSame(m: Mux, n: Mux, p: MediaPacket)
    requires n == m.(sink := n.sink)
    ensures Known(n, p) == Known(m, p) && BytesFor(n, p) == BytesFor(m, p) && LeadBytes(n, p) == LeadBytes(m, p)
    ensures StampOf(n, p) == StampOf(m, p)
  {
    hide ConfigBody, FrameSize;
  }

  /** Recording reports success exactly when, before the call, the packet was acceptable or came too late. */
  lemma RecordSucceeds(r: Recorder, p: MediaPacket)
    requires Begun(r)
    ensures Record(r, p).1 <==> r.finished || Accepted(r, p)
  {
    hide EnsureMetadata, WriteOrRebase, Known, BytesFor, Room, MetadataBytes;
    RoomIsNat(r.m.sink);
    MetadataOut(r);
    var s := EnsureMetadata(r).0;
    if EnsureMetadata(r).1 {
      NeedsSame(WithHeader(r), s.m, p);
      WriteOrRebaseSucceeds(s.m, p);
    }
  }

  // ---------------------------------------------------------------------------------
  // What a call adds to the file
  // ---------------------------------------------------------------------------------

  /** The muxer that a call finds behind the metadata. */
  function AfterMetadata(r: Recorder): Mux
    requires MetadataBytes(r) <= Room(r.m.sink)
  {
    WithHeader(r).(sink := Sink([], Room(r.m.sink) - MetadataBytes(r), false))
  }

  /** Both configurations, video first; the audio one only when the video one went out whole. */
  function CodecsAdded(m: Mux, avcc: Option<bytes>, asc: Option<bytes>): seq<Flv.Decoded> {
    var video := if avcc.Some? then VideoAdded(m, avcc.value) else [];
    var size := if avcc.Some? && !m.videoSeq then TAG_OVERHEAD + 5 + |avcc.value| else 0;
    video
    + if asc.Some? && size <= Room(m.sink) then AudioAdded(m.(sink := Sink([], Room(m.sink) - size, false)), asc.value)
      else []
  }

  /** Said before the call: what it adds, in the decoder's terms. */
  function Added(r: Recorder, c: Call): seq<Flv.Decoded> {
    if MetadataBytes(r) > Room(r.m.sink) then []
    else
      match c
      case Codecs(avcc, asc) => CodecsAdded(AfterMetadata(r), avcc, asc)
      case Packet(p) => PacketAdded(AfterMetadata(r), p)
      case FinishCall => []
  }

  /** Up to the finish. */
  function AddedAll(r: Recorder, calls: seq<Call>): seq<Flv.Decoded>
    decreases |calls|
  {
    if calls == [] || calls[0].FinishCall? then [] else Added(r, calls[0]) + AddedAll(Do(r, calls[0]), calls[1..])
  }

  ghost predicate Ready(r: Recorder) {
    Intact(r.m) && Begun(r) && |r.meta| < TWO_24
  }

  lemma MetadataReady(r: Recorder)
    requires Ready(r)
    ensures var (s, ok) := EnsureMetadata(r);
      && Ready(s) && Decoded(s.m) == Decoded(r.m) && (ok ==> s.m.header)
      && (ok <==> MetadataBytes(r) <= Room(r.m.sink))
      && (ok ==> s.m == AfterMetadata(r).(sink := s.m.sink) && Room(s.m.sink) == Room(AfterMetadata(r).sink))
  {
    hide WriteMetadata, Intact, Decoded;
    MetadataOut(r);
    MetadataDecodesNothing(r.m, r.meta);
  }

  /** What is added depends on the clock, the headers that are out and the room, not on the bytes before. */
  lemma AddsSame(m: Mux, n: Mux, p: MediaPacket)
    requires n == m.(sink := n.sink) && Room(n.sink) == Room(m.sink)
    ensures PacketAdded(n, p) == PacketAdded(m, p)
  {
    hide FrameAt, FrameSize, VideoConfigured, AudioConfigured, Known, LeadBytes, StampOf;
    NeedsSame(m, n, p);
  }

  lemma CodecsDecode(m: Mux, avcc: Option<bytes>, asc: Option<bytes>)
    requires Intact(m) && m.header && FitsConfig(avcc) && FitsConfig(asc)
    ensures var n := InitCodecs(m, avcc, asc).0;
      Intact(n) && n.header && Decoded(n) == Decoded(m) + CodecsAdded(m, avcc, asc)
  {
    hide Intact, Decoded, WriteVideoSequence, WriteAudioSequence, VideoConfigured, AudioConfigured;
    var v := if avcc.Some? then WriteVideoSequence(m, avcc.value) else (m, Done);
    RoomIsNat(m.sink);
    if avcc.Some? {
      VideoSequenceDecodes(m, avcc.value);
      VideoSequenceRoom(m, avcc.value);
    }
    if v.1 == Done && asc.Some? {
      AudioSequenceDecodes(v.0, asc.value);
    }
  }

  lemma CallAdds(r: Recorder, c: Call)
    requires Ready(r) && Fitting(c) && !r.finished && !c.FinishCall?
    ensures Ready(Do(r, c)) && Decoded(Do(r, c).m) == Decoded(r.m) + Added(r, c) && !Do(r, c).finished
  {
    hide EnsureMetadata, InitCodecs, WriteOrRebase, Intact, Decoded, Fits, FitsConfig, CodecsAdded, PacketAdded, Room,
         MetadataBytes;
    MetadataReady(r);
    var (s, ok) := EnsureMetadata(r);
    assert Decoded(r.m) + [] == Decoded(r.m);
    MetadataKeeps(r);
    if ok {
      match c
      case Codecs(avcc, asc) =>
        CodecsDecode(s.m, avcc, asc);
        CodecsSame(AfterMetadata(r), s.m, avcc, asc);
      case Packet(p) =>
        WriteOrRebaseDecodes(s.m, p);
        AddsSame(AfterMetadata(r), s.m, p);
    }
  }

  lemma CodecsSame(m: Mux, n: Mux, avcc: Option<bytes>, asc: Option<bytes>)
    requires n == m.(sink := n.sink) && Room(n.sink) == Room(m.sink)
    ensures CodecsAdded(n, avcc, asc) == CodecsAdded(m, avcc, asc)
  {
    hide VideoConfigured, AudioConfigured;
  }

  lemma MetadataKeeps(r: Recorder)
    ensures EnsureMetadata(r).0.meta == r.meta && EnsureMetadata(r).0.finished == r.finished
    ensures EnsureMetadata(r).1 == EnsureMetadata(r).0.metadataWritten
  {
    hide WriteMetadata;
  }

  lemma {:induction false} FinishedStays(r: Recorder, calls: seq<Call>)
    requires r.finished
    ensures DoAll(r, calls) == r
    decreases |calls|
  {
    if calls != [] {
      FinishedStays(r, calls[1..]);
    }
  }

  lemma {:induction false} RunAdds(r: Recorder, calls: seq<Call>)
    requires Ready(r) && !r.finished && forall c :: c in calls ==> Fitting(c)
    ensures Decoded(DoAll(r, calls).m) == Decoded(r.m) + AddedAll(r, calls)
    decreases |calls|
  {
    hide Ready, Decoded, Added, Fitting, Record, SetCodecs;
    if calls != [] {
      assert calls == [calls[0]] + calls[1..];
      if calls[0].FinishCall? {
        FinishedStays(Do(r, calls[0]), calls[1..]);
      } else {
        CallAdds(r, calls[0]);
        RunAdds(Do(r, calls[0]), calls[1..]);
      }
    }
  }

  /**
    Over any calls from a new recorder, with clock jumps and failing writes: the file decodes to exactly
    the configurations and frames that the calls before the first finish added, in order, each frame
    behind the sequence header that it brought.
   */
  lemma FileHoldsRecorded(room: nat, meta: bytes, calls: seq<Call>)
    requires |meta| < TWO_24 && forall c :: c in calls ==> Fitting(c)
    ensures Decoded(DoAll(NewRecorder(room, meta), calls).m) == AddedAll(NewRecorder(room, meta), calls)
  {
    hide DoAll, AddedAll, Fitting;
    NoBytesNoTags();
    RunAdds(NewRecorder(room, meta), calls);
  }

  /** In every state of a run the reported success is the acceptance said before the call. */
  lemma {:induction false} AlwaysBegun(r: Recorder, calls: seq<Call>)
    requires Begun(r)
    ensures Begun(DoAll(r, calls))
    decreases |calls|
  {
    hide Do;
    if calls != [] {
      CallBegun(r, calls[0]);
      AlwaysBegun(Do(r, calls[0]), calls[1..]);
    }
  }

  lemma CallBegun(r: Recorder, c: Call)
    requires Begun(r)
    ensures Begun(Do(r, c))
  {
    hide WriteMetadata, InitCodecs, WriteOrRebase;
    MetadataRoom(r.m, r.meta);
    var s := EnsureMetadata(r).0;
    match c
    case Codecs(avcc, asc) => CodecsKeepHeader(s.m, avcc, asc);
    case Packet(p) => PacketKeepsHeader(s.m, p);
    case FinishCall =>
  }

  lemma CodecsKeepHeader(m: Mux, avcc: Option<bytes>, asc: Option<bytes>)
    ensures m.header ==> InitCodecs(m, avcc, asc).0.header
  {
    hide Put, TagAt, TagBytes;
  }

  lemma PacketKeepsHeader(m: Mux, p: MediaPacket)
    ensures m.header ==> WriteOrRebase(m, p).0.header
  {
    hide Put, TagAt, TagBytes, MediaTag, TrackTime, AnnexBToAvcc, AdtsToAsc;
  }

  lemma {:induction false} FinishedWhen(r: Recorder, calls: seq<Call>)
    requires !r.finished
    ensures DoAll(r, calls).finished <==> FinishCall in calls
    decreases |calls|
  {
    hide EnsureMetadata, InitCodecs, WriteOrRebase;
    if calls != [] {
      assert calls == [calls[0]] + calls[1..];
      if calls[0].FinishCall? {
        FinishedStays(Do(r, calls[0]), calls[1..]);
      } else {
        MetadataKeeps(r);
        FinishedWhen(Do(r, calls[0]), calls[1..]);
      }
    }
  }

  /** A packet of any run is reported as recorded exactly when it was acceptable, or came after a finish. */
  lemma RecordingReports(room: nat, meta: bytes, calls: seq<Call>, p: MediaPacket)
    ensures var r := DoAll(NewRecorder(room, meta), calls);
      Record(r, p).1 <==> FinishCall in calls || Accepted(r, p)
  {
    hide DoAll, Record, Accepted;
    AlwaysBegun(NewRecorder(room, meta), calls);
    FinishedWhen(NewRecorder(room, meta), calls);
    RecordSucceeds(DoAll(NewRecorder(room, meta), calls), p);
  }
}
