/**
  Recording beside the live stream: a second client of the muxer, with a muxer of its own that
  outlives every publish connection. `Recorder` is its state as a value, `RecordingOutput` the
  object.
 */
module Recording {
  import opened Bytes
  import opened Media
  import opened FlvTags
  import opened Mux
  import opened Timeline
  import opened TagLog
  import Flv

  datatype Recorder = Recorder(m: Mux, meta: bytes, metadataWritten: bool, finished: bool)

  function NewRecorder(room: nat, meta: bytes): Recorder {
    Recorder(NewMux(Sink([], room, false)), meta, false, false)
  }

  function EnsureMetadata(r: Recorder): (Recorder, bool) {
    if r.metadataWritten then (r, true)
    else
      var (m, o) := WriteMetadata(r.m, r.meta);
      (r.(m := m, metadataWritten := o == Done), o == Done)
  }

  function SetCodecs(r: Recorder, avcc: Option<bytes>, asc: Option<bytes>): Recorder {
    if r.finished then r
    else
      var (s, ok) := EnsureMetadata(r);
      if ok then s.(m := InitCodecs(s.m, avcc, asc).0) else s
  }

  /** Records one packet; late packets of a finished recording are ignored. */
  function Record(r: Recorder, p: MediaPacket): (Recorder, bool) {
    if r.finished then (r, true)
    else
      var (s, ok) := EnsureMetadata(r);
      if !ok then (s, false)
      else
        var (m, o) := WriteOrRebase(s.m, p);
        (s.(m := m), o == Done)
  }

  datatype Call = Codecs(avcc: Option<bytes>, asc: Option<bytes>) | Packet(p: MediaPacket) | FinishCall

  function Do(r: Recorder, c: Call): Recorder {
    match c
    case Codecs(avcc, asc) => SetCodecs(r, avcc, asc)
    case Packet(p) => Record(r, p).0
    case FinishCall => r.(finished := true)
  }

  function DoAll(r: Recorder, calls: seq<Call>): Recorder
    decreases |calls|
  {
    if calls == [] then r else DoAll(Do(r, calls[0]), calls[1..])
  }

  class RecordingOutput {
    const muxer: FlvMuxer
    const meta: bytes
    var metadataWritten: bool
    var finished: bool

    function View(): Recorder
      reads this, muxer, muxer.sink
    {
      Recorder(muxer.View(), meta, metadataWritten, finished)
    }

    constructor (sink: ByteSink, meta: bytes)
      ensures View() == Recorder(NewMux(sink.View()), meta, false, false) && muxer.sink == sink && fresh(muxer)
    {
      muxer := new FlvMuxer(sink);
      this.meta, metadataWritten, finished := meta, false, false;
    }

    /** The metadata tag precedes everything else and is written once. */
    method PutMetadataOnce() returns (ok: bool)
      modifies this`metadataWritten, muxer, muxer.sink
      ensures (View(), ok) == EnsureMetadata(old(View()))
    {
      hide WriteMetadata;
      if metadataWritten {
        return true;
      }
      var o := muxer.PutMetadata(meta);
      ok := o == Done;
      metadataWritten := ok;
    }

    method Configure(avcc: Option<bytes>, asc: Option<bytes>)
      modifies this`metadataWritten, muxer, muxer.sink
      ensures View() == SetCodecs(old(View()), avcc, asc)
    {
      hide EnsureMetadata, InitCodecs;
      if finished {
        return;
      }
      var ok := PutMetadataOnce();
      if ok {
        var o := muxer.PutCodecs(avcc, asc);
      }
    }

    method RecordPacket(p: MediaPacket) returns (ok: bool)
      modifies this`metadataWritten, muxer, muxer.sink
      ensures (View(), ok) == Record(old(View()), p)
    {
      hide EnsureMetadata, WriteOrRebase;
      if finished {
        return true;
      }
      ok := PutMetadataOnce();
      if !ok {
        return false;
      }
      var o := muxer.PutOrReanchor(p);
      return o == Done;
    }

    method Finish()
      modifies this`finished
      ensures View() == Do(old(View()), FinishCall)
    {
      finished := true;
    }
  }

  // ---------------------------------------------------------------------------------
  // One contiguous, ordered file
  // ---------------------------------------------------------------------------------

  /** A file in order, whose metadata tag, if any, is its first. */
  ghost predicate GoodFile(r: Recorder) {
    var tags := TagsOf(r.m.sink.log);
    && Sound([], r.m)
    && (forall i :: 0 <= i < |tags| && IsScript(tags[i]) ==> i == 0)
    && (!r.metadataWritten && !r.m.sink.dead ==> tags == [])
    && (r.metadataWritten ==> tags != [] && IsScript(tags[0]))
  }

  predicate Fitting(c: Call) {
    match c
    case Codecs(avcc, asc) => FitsConfig(avcc) && FitsConfig(asc)
    case Packet(p) => Fits(p)
    case FinishCall => true
  }

  lemma MetadataGood(r: Recorder)
    requires GoodFile(r) && |r.meta| < TWO_24
    ensures GoodFile(EnsureMetadata(r).0) && EnsureMetadata(r).1 == EnsureMetadata(r).0.metadataWritten
  {
    hide TagBytes, Drain, StepOf;
    MetadataSound([], r.m, r.meta);
    PutHeaderSeen(r.m);
    if !r.metadataWritten && EnsureHeader(r.m).header && !r.m.sink.dead {
      var h := EnsureHeader(r.m);
      assert !h.sink.dead;
      PutTagSeen(h.sink, TagAt(Flv.TAG_SCRIPT, HeaderTs(h), r.meta));
    }
  }

  lemma GrewGood(r: Recorder, m: Mux, frames: seq<FlvTag>)
    requires GoodFile(r) && r.metadataWritten && Grew(r.m, m, frames, None) && Sound([], m)
    ensures GoodFile(r.(m := m))
  {
    hide TagsOf, Sound, FramesOf, Encodable;
    var more :| Added(r.m, m, more) && FramesOf(more) == frames && AllWellformed(more, None);
    assert forall k :: 0 <= k < |more| ==> Wellformed(more[k], None) && !IsScript(more[k]);
    var a, b := TagsOf(r.m.sink.log), TagsOf(m.sink.log);
    forall i | |a| <= i < |b| ensures !IsScript(b[i]) {
      assert b[i] == more[i - |a|];
    }
    forall i | 0 <= i < |b| && IsScript(b[i]) ensures i == 0 {
      assert i < |a| && b[i] == a[i];
    }
  }

  lemma DoGood(r: Recorder, c: Call)
    requires GoodFile(r) && |r.meta| < TWO_24 && Fitting(c)
    ensures GoodFile(Do(r, c)) && Do(r, c).meta == r.meta
  {
    hide WriteMetadata, InitCodecs, WriteOrRebase, Fits, FitsConfig, TagsOf, FrameShown, Grew;
    MetadataGood(r);
    var (s, ok) := EnsureMetadata(r);
    if !r.finished && ok {
      match c
      case Codecs(avcc, asc) =>
        CodecsSound([], s.m, avcc, asc);
        CodecsGrew(s.m, avcc, asc);
        GrewGood(s, InitCodecs(s.m, avcc, asc).0, []);
      case Packet(p) =>
        WriteOrRebaseSound([], s.m, p);
        WriteOrRebaseGrew(s.m, p);
        GrewGood(s, WriteOrRebase(s.m, p).0, FrameShown(s.m, p));
      case FinishCall =>
    }
  }

  lemma {:induction false} DoAllGood(r: Recorder, calls: seq<Call>)
    requires GoodFile(r) && |r.meta| < TWO_24 && forall c :: c in calls ==> Fitting(c)
    ensures GoodFile(DoAll(r, calls))
    decreases |calls|
  {
    hide Do, GoodFile, Fitting;
    if calls != [] {
      DoGood(r, calls[0]);
      DoAllGood(Do(r, calls[0]), calls[1..]);
    }
  }

  /**
    Whatever is recorded, with clock jumps and failed writes, the file is one ordered series of
    tags with at most one metadata tag, at its beginning.
   */
  lemma RecordingInOrder(room: nat, meta: bytes, calls: seq<Call>)
    requires |meta| < TWO_24 && forall c :: c in calls ==> Fitting(c)
    ensures var tags := TagsOf(DoAll(NewRecorder(room, meta), calls).m.sink.log);
            Ordered(tags) && forall i :: 0 <= i < |tags| && IsScript(tags[i]) ==> i == 0
  {
    hide Do, Drain, StepOf, Fitting;
    NoBytesNoTags();
    var r := NewRecorder(room, meta);
    assert GoodFile(r);
    DoAllGood(r, calls);
    var tags := TagsOf(DoAll(r, calls).m.sink.log);
    assert [] + tags == tags;
  }
}
