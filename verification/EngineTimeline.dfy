/** The engine's timeline over whole runs: timestamps never go back, across failures and reconnects. */
module EngineTimeline {
  import opened Bytes
  import opened Media
  import opened FlvTags
  import opened Mux
  import opened Timeline
  import opened Backpressure
  import opened Engines
  import opened EngineRuns
  import opened TagLog
  import Flv

  ghost predicate AllFit(q: seq<MediaPacket>) {
    forall i :: 0 <= i < |q| ==> Fits(q[i])
  }

  /** The watermarks that the next connection will continue from. */
  function MarkOf(t: Option<Timebase>): (Option<int>, Option<int>) {
    if t.Some? then (t.value.lastVideo, t.value.lastAudio) else (None, None)
  }

  ghost predicate AllOrdered(streams: seq<seq<FlvTag>>) {
    forall i :: 0 <= i < |streams| ==> Ordered(streams[i])
  }

  ghost predicate TimelineSound(w: World) {
    var e := w.engine;
    AllOrdered(w.ended) &&
    match e.muxer
    case Some(m) => Sound(w.past, m) && e.timebase.None?
    case None => Ordered(w.past) && Marked(w.past, MarkOf(e.timebase).0, MarkOf(e.timebase).1)
  }

  /** What is queued and configured fits the format. */
  ghost predicate Fitting(e: Engine) {
    && |e.meta| < TWO_24 && AllFit(e.buffer.queue)
    && FitsConfig(e.avcc) && FitsConfig(e.asc)
    && (e.muxer.Some? ==> FitsConfig(e.muxer.value.avcc) && FitsConfig(e.muxer.value.asc))
  }

  /** Events that fit the format, and no second transport over an attached one. */
  ghost predicate Orderly(w: World, ev: Event) {
    match ev
    case PushEv(ps) => AllFit(ps)
    case AttachEv(_) => w.engine.muxer.None?
    case ConfigureEv(avcc, asc) => FitsConfig(avcc) && FitsConfig(asc)
    case _ => true
  }

  // ---------------------------------------------------------------------------------
  // The queue stays fitting
  // ---------------------------------------------------------------------------------

  lemma {:induction false} PushSeqFits(b: Buffer, ps: seq<MediaPacket>)
    requires AllFit(b.queue) && AllFit(ps)
    ensures AllFit(PushSeq(b, ps).queue)
    decreases |ps|
  {
    hide Fits;
    if ps != [] {
      PushSeqFits(Push(b, ps[0]), ps[1..]);
    }
  }

  lemma {:induction false} KeptFits(q: seq<MediaPacket>, awaiting: bool)
    requires AllFit(q)
    ensures AllFit(Kept(q, awaiting))
  {
    hide Fits;
    if q != [] {
      KeptFits(q[1..], awaiting && !IsKeyframe(q[0]));
    }
  }

  lemma {:induction false} SortFits(q: seq<MediaPacket>)
    requires AllFit(q)
    ensures AllFit(SortByDts(q))
  {
    hide Fits, SortByDts;
    SortElements(q);
    var s := SortByDts(q);
    forall i | 0 <= i < |s| ensures Fits(s[i]) {
      assert s[i] in multiset(s);
      assert s[i] in multiset(q);
    }
  }

  lemma BatchFits(e: Engine)
    requires AllFit(e.buffer.queue)
    ensures AllFit(Batch(e))
  {
    KeptFits(e.buffer.queue, e.awaitingKeyframe);
    SortFits(Kept(e.buffer.queue, e.awaitingKeyframe));
  }

  // ---------------------------------------------------------------------------------
  // Ticks
  // ---------------------------------------------------------------------------------

  ghost predicate SoundAndFit(past: seq<FlvTag>, m: Mux) {
    Sound(past, m) && FitsConfig(m.avcc) && FitsConfig(m.asc)
  }

  lemma WriteVideoSequenceFits(m: Mux, avcc: bytes)
    requires FitsConfig(m.avcc) && FitsConfig(m.asc) && FitsConfig(Some(avcc))
    ensures FitsConfig(WriteVideoSequence(m, avcc).0.avcc) && FitsConfig(WriteVideoSequence(m, avcc).0.asc)
  {
    hide Put, TagBytes;
  }

  lemma WriteAudioSequenceFits(m: Mux, asc: bytes)
    requires FitsConfig(m.avcc) && FitsConfig(m.asc) && FitsConfig(Some(asc))
    ensures FitsConfig(WriteAudioSequence(m, asc).0.avcc) && FitsConfig(WriteAudioSequence(m, asc).0.asc)
  {
    hide Put, TagBytes;
  }

  lemma WritePacketFits(m: Mux, p: MediaPacket)
    requires FitsConfig(m.avcc) && FitsConfig(m.asc) && Fits(p)
    ensures FitsConfig(WritePacket(m, p).0.avcc) && FitsConfig(WritePacket(m, p).0.asc)
  {
    hide Put, TagBytes, WriteVideoSequence, WriteAudioSequence, MediaTag, TrackTime, FindSets, AnnexBToAvcc;
    var h := EnsureHeader(m);
    if AnnexBToAvcc(p.data).Some? && p.kind == Video {
      WriteVideoSequenceFits(h, AnnexBToAvcc(p.data).value);
    }
    if AdtsToAsc(p.data).Some? {
      WriteAudioSequenceFits(h, AdtsToAsc(p.data).value);
    }
  }

  lemma WriteOrRebaseFits(past: seq<FlvTag>, m: Mux, p: MediaPacket)
    requires SoundAndFit(past, m) && Fits(p)
    ensures SoundAndFit(past, WriteOrRebase(m, p).0)
  {
    hide WritePacket, Fits, Sound;
    WriteOrRebaseSound(past, m, p);
    WritePacketFits(m, p);
    WritePacketFits(Rebase(WritePacket(m, p).0, p.kind, p.dts), p);
  }

  lemma {:induction false} SendSound(past: seq<FlvTag>, m: Mux, batch: seq<MediaPacket>)
    requires SoundAndFit(past, m) && AllFit(batch)
    ensures SoundAndFit(past, Send(m, batch).muxer)
    decreases |batch|
  {
    hide WriteOrRebase, Fits, SoundAndFit;
    if batch != [] {
      assert Fits(batch[0]);
      WriteOrRebaseFits(past, m, batch[0]);
      SendSound(past, WriteOrRebase(m, batch[0]).0, batch[1..]);
    }
  }

  lemma InitCodecsFits(past: seq<FlvTag>, m: Mux, avcc: Option<bytes>, asc: Option<bytes>)
    requires SoundAndFit(past, m) && FitsConfig(avcc) && FitsConfig(asc)
    ensures SoundAndFit(past, InitCodecs(m, avcc, asc).0)
  {
    hide WriteVideoSequence, WriteAudioSequence, Sound;
    CodecsSound(past, m, avcc, asc);
    if avcc.Some? {
      WriteVideoSequenceFits(m, avcc.value);
    }
    var v := if avcc.Some? then WriteVideoSequence(m, avcc.value) else (m, Done);
    if asc.Some? {
      WriteAudioSequenceFits(v.0, asc.value);
    }
  }

  lemma MetadataFits(past: seq<FlvTag>, m: Mux, meta: bytes)
    requires SoundAndFit(past, m) && |meta| < TWO_24
    ensures SoundAndFit(past, WriteMetadata(m, meta).0)
  {
    hide Put, TagBytes, Sound;
    MetadataSound(past, m, meta);
  }

  lemma SendBatchSound(past: seq<FlvTag>, e: Engine, m: Mux, flushes: bool)
    requires Fitting(e) && SoundAndFit(past, m)
    ensures SoundAndFit(past, SendBatch(e, m, flushes).muxer)
  {
    hide WriteMetadata, InitCodecs, Send, Batch, SoundAndFit;
    MetadataFits(past, m, e.meta);
    var meta := if e.metadataWritten then (m, Done) else WriteMetadata(m, e.meta);
    InitCodecsFits(past, meta.0, e.avcc, e.asc);
    BatchFits(e);
    SendSound(past, Preamble(e, m).0, Batch(e));
  }

  lemma TickSound(w: World, healthy: bool, flushes: bool)
    requires TimelineSound(w) && Fitting(w.engine)
    ensures TimelineSound(Next(w, TickEv(healthy, flushes))) && Fitting(Next(w, TickEv(healthy, flushes)).engine)
  {
    hide SendBatch, Batch, Sound, FitsConfig, Kept, Orphans, HasKeyframe, Fits;
    var e := w.engine;
    if e.muxer.Some? && healthy {
      SendBatchSound(w.past, e, e.muxer.value, flushes);
      BatchFits(e);
    }
  }

  // ---------------------------------------------------------------------------------
  // Finishes
  // ---------------------------------------------------------------------------------

  lemma {:induction false} StrictSound(past: seq<FlvTag>, m: Mux, batch: seq<MediaPacket>)
    requires SoundAndFit(past, m) && AllFit(batch)
    ensures SoundAndFit(past, SendStrict(m, batch).0)
    decreases |batch|
  {
    hide WritePacket, Fits, Sound;
    if batch != [] {
      assert Fits(batch[0]);
      PacketSound(past, m, batch[0]);
      WritePacketFits(m, batch[0]);
      StrictSound(past, WritePacket(m, batch[0]).0, batch[1..]);
    }
  }

  /** A successful finish closes the stream: its tags are complete, and the next one starts from nothing. */
  lemma FinishEvSound(w: World, flushes: bool)
    requires TimelineSound(w) && Fitting(w.engine)
    ensures TimelineSound(Next(w, FinishEv(flushes))) && Fitting(Next(w, FinishEv(flushes)).engine)
  {
    hide SendStrict, Batch, FitsConfig, Kept, Orphans, HasKeyframe, Fits, TagsOf, Ordered, Marked, Intact;
    var e := w.engine;
    if e.muxer.Some? {
      BatchFits(e);
      StrictSound(w.past, e.muxer.value, Batch(e));
      NothingOrdered();
    }
  }

  lemma NothingOrdered()
    ensures Ordered([]) && Marked([], None, None)
  {
  }

  // ---------------------------------------------------------------------------------
  // The other calls
  // ---------------------------------------------------------------------------------

  lemma PushEvSound(w: World, ps: seq<MediaPacket>)
    requires TimelineSound(w) && Fitting(w.engine) && AllFit(ps)
    ensures TimelineSound(Next(w, PushEv(ps))) && Fitting(Next(w, PushEv(ps)).engine)
  {
    hide PushSeq, PushDrops, Sound, FitsConfig, BeforeLastKey, Fits;
    PushSeqFits(w.engine.buffer, ps);
  }

  lemma AttachEvSound(w: World, room: nat)
    requires TimelineSound(w) && Fitting(w.engine) && w.engine.muxer.None?
    ensures TimelineSound(Next(w, AttachEv(room))) && Fitting(Next(w, AttachEv(room)).engine)
  {
    hide Drain, StepOf, Fits;
    NoBytesNoTags();
    assert w.past + [] == w.past;
  }

  lemma DetachEvSound(w: World)
    requires TimelineSound(w) && Fitting(w.engine)
    ensures TimelineSound(Next(w, DetachEv)) && Fitting(Next(w, DetachEv).engine)
  {
    hide TagsOf, Ordered, Marked, Fits, FitsConfig, BeforeLastKey;
    assert w.past + [] == w.past;
  }

  lemma ConfigureEvSound(w: World, avcc: Option<bytes>, asc: Option<bytes>)
    requires TimelineSound(w) && Fitting(w.engine) && FitsConfig(avcc) && FitsConfig(asc)
    ensures TimelineSound(Next(w, ConfigureEv(avcc, asc))) && Fitting(Next(w, ConfigureEv(avcc, asc)).engine)
  {
    hide InitCodecs, Sound, FitsConfig, Fits;
    if w.engine.muxer.Some? {
      InitCodecsFits(w.past, w.engine.muxer.value, avcc, asc);
    }
  }

  lemma StepSound(w: World, ev: Event)
    requires TimelineSound(w) && Fitting(w.engine) && Orderly(w, ev)
    ensures TimelineSound(Next(w, ev)) && Fitting(Next(w, ev).engine)
  {
    hide TimelineSound, Fitting, Fits, FitsConfig, BeforeLastKey;
    match ev
    case PushEv(ps) => PushEvSound(w, ps);
    case TickEv(healthy, flushes) => TickSound(w, healthy, flushes);
    case AttachEv(room) => AttachEvSound(w, room);
    case DetachEv => DetachEvSound(w);
    case ConfigureEv(avcc, asc) => ConfigureEvSound(w, avcc, asc);
    case ResyncEv => ResyncEvSound(w);
    case FinishEv(flushes) => FinishEvSound(w, flushes);
  }

  lemma ResyncEvSound(w: World)
    requires TimelineSound(w) && Fitting(w.engine)
    ensures TimelineSound(Next(w, ResyncEv)) && Fitting(Next(w, ResyncEv).engine)
  {
    hide Sound, Fits, FitsConfig, BeforeLastKey, Ordered, Marked;
  }

  ghost predicate OrderlyRun(w: World, events: seq<Event>)
    decreases |events|
  {
    events != [] ==> Orderly(w, events[0]) && OrderlyRun(Next(w, events[0]), events[1..])
  }

  lemma {:induction false} RunSound(w: World, events: seq<Event>)
    requires TimelineSound(w) && Fitting(w.engine) && OrderlyRun(w, events)
    ensures TimelineSound(Run(w, events)) && Fitting(Run(w, events).engine)
    decreases |events|
  {
    hide Next, TimelineSound, Fitting, Orderly;
    if events != [] {
      StepSound(w, events[0]);
      RunSound(Next(w, events[0]), events[1..]);
    }
  }

  /**
    Over any run from a new engine (pushes, ticks that fail anywhere, clock rebases, detaches,
    attaches and finishes), the tags of all connections of a stream one after the other never go
    back: no frame precedes an earlier frame of its track and no header precedes any earlier frame.
    A successful finish ends a stream.
   */
  lemma TimestampsNeverGoBack(profile: LatencyProfile, meta: bytes, events: seq<Event>)
    requires |meta| < TWO_24 && OrderlyRun(NewWorld(profile, meta), events)
    ensures var w := Run(NewWorld(profile, meta), events); Ordered(Seen(w)) && AllOrdered(w.ended)
  {
    hide Next, Run, Drain, StepOf;
    RunSound(NewWorld(profile, meta), events);
    var w := Run(NewWorld(profile, meta), events);
    assert w.past + [] == w.past;
  }

  // ---------------------------------------------------------------------------------
  // Why a second transport must not replace an attached one
  // ---------------------------------------------------------------------------------

  /** No frame of either track lies above zero. */
  ghost predicate AllAtZero(tags: seq<FlvTag>) {
    forall i :: 0 <= i < |tags| && !IsHeaderStyle(tags[i]) ==> tags[i].ts == 0
  }

  lemma ZeroThenAny(a: seq<FlvTag>, b: seq<FlvTag>)
    requires Ordered(a) && Ordered(b) && AllAtZero(a)
    ensures Ordered(a + b)
  {
    hide IsMedia;
    forall i, j | 0 <= i < j < |a + b| ensures MayFollow((a + b)[i], (a + b)[j]) {
      if i < |a| <= j {
        assert (a + b)[i] == a[i];
        forall kind | IsMedia(a[i], kind) ensures a[i].ts == 0 {
          assert kind == Video || kind == Audio;
        }
      } else if i >= |a| {
        assert (a + b)[i] == b[i - |a|] && (a + b)[j] == b[j - |a|];
      } else {
        assert (a + b)[i] == a[i] && (a + b)[j] == a[j];
      }
    }
  }

  /** A header at zero may come only while every frame so far is at zero. */
  lemma HeaderAtZero(a: seq<FlvTag>, t: FlvTag, b: seq<FlvTag>)
    requires IsHeaderStyle(t) && t.ts == 0 && Ordered(a + ([t] + b))
    ensures AllAtZero(a)
  {
    hide IsMedia;
    var all := a + ([t] + b);
    forall i | 0 <= i < |a| && !IsHeaderStyle(a[i]) ensures a[i].ts == 0 {
      assert all[i] == a[i] && all[|a|] == t;
      assert MayFollow(all[i], all[|a|]);
    }
  }

  function MetadataTag(meta: bytes): FlvTag {
    FlvTag(Flv.TAG_SCRIPT, 0, meta)
  }

  /** The metadata tag of a fresh muxer sits at zero, and is seen when file header, tag header and body find room. */
  lemma FreshMetadata(room: nat, meta: bytes)
    requires |meta| < TWO_24
    ensures var m := WriteMetadata(NewMux(Sink([], room, false)), meta).0;
      && Intact(m) && m.sink.dead == (room < 28 + |meta|)
      && TagsOf(m.sink.log) == if 24 + |meta| <= room then [MetadataTag(meta)] else []
  {
    hide TagBytes, Drain, StepOf, TagsOf, FILE_HEADER;
    var m := NewMux(Sink([], room, false));
    NoBytesNoTags();
    PutHeaderSeen(m);
    var h := EnsureHeader(m);
    assert |FILE_HEADER| == 13 by { HeaderLength(); }
    if h.header {
      var t := TagAt(Flv.TAG_SCRIPT, HeaderTs(h), meta);
      assert t == MetadataTag(meta);
      PutTagSeen(h.sink, t);
      TagLength(t);
    }
  }

  lemma HeaderLength()
    ensures |FILE_HEADER| == 13
  {
  }

  lemma {:induction false} SendGrew(m: Mux, batch: seq<MediaPacket>)
    requires Intact(m) && AllFit(batch)
    ensures Intact(Send(m, batch).muxer) && TagsOf(m.sink.log) <= TagsOf(Send(m, batch).muxer.sink.log)
    decreases |batch|
  {
    hide WriteOrRebase, Fits, TagsOf, Intact, Grew, FrameShown;
    if batch != [] {
      assert Fits(batch[0]);
      WriteOrRebaseGrew(m, batch[0]);
      GrewIntact(m, WriteOrRebase(m, batch[0]).0, FrameShown(m, batch[0]), None);
      SendGrew(WriteOrRebase(m, batch[0]).0, batch[1..]);
    }
  }

  /** The tags of the first tick after an attach: none without room for the metadata, which otherwise comes first. */
  lemma FirstTick(e: Engine, room: nat, flushes: bool)
    requires Fitting(e) && !e.metadataWritten
    ensures var m := NewMux(Sink([], room, false));
      var tags := TagsOf(SendBatch(e, m, flushes).muxer.sink.log);
      if room < 24 + |e.meta| then tags == [] else [MetadataTag(e.meta)] <= tags
  {
    hide WriteMetadata, InitCodecs, Send, Batch, TagsOf, FitsConfig, Intact, Grew;
    var m := NewMux(Sink([], room, false));
    FreshMetadata(room, e.meta);
    DeadFails(m, e.meta);
    var meta := WriteMetadata(m, e.meta);
    if meta.1 == Done {
      CodecsGrew(meta.0, e.avcc, e.asc);
      GrewIntact(meta.0, InitCodecs(meta.0, e.avcc, e.asc).0, [], None);
      BatchFits(e);
      SendGrew(Preamble(e, m).0, Batch(e));
    }
  }

  lemma DeadFails(m: Mux, meta: bytes)
    ensures WriteMetadata(m, meta).1 == Done ==> !WriteMetadata(m, meta).0.sink.dead
    ensures WriteMetadata(m, meta).0.sink.dead ==> WriteMetadata(m, meta).1 != Done || EnsureHeader(m).sink.dead
    ensures !WriteMetadata(m, meta).0.sink.dead ==> WriteMetadata(m, meta).1 == Done
  {
    hide TagBytes;
  }

  /**
    A second transport attached over a first one, and then a tick: the stream's tags stay in order
    exactly when no frame seen so far, of either track, lies above zero, or when the new transport
    fails before it has taken the metadata. The muxer that was replaced takes both watermarks with it.
   */
  lemma ReattachForgets(w: World, room: nat, flushes: bool)
    requires TimelineSound(w) && Fitting(w.engine) && w.engine.muxer.Some?
    ensures var n := Next(Next(w, AttachEv(room)), TickEv(true, flushes));
      Ordered(Seen(n)) <==> AllAtZero(Seen(w)) || room < 24 + |w.engine.meta|
  {
    hide SendBatch, Batch, TagsOf, FitsConfig, Kept, Orphans, HasKeyframe, Fits, Ordered, AllAtZero, Settle, Intact,
         Marked;
    var w1 := Next(w, AttachEv(room));
    var e, m := w1.engine, NewMux(Sink([], room, false));
    AttachFresh(w.engine, room);
    FirstTick(e, room, flushes);
    FreshSound(room);
    SendBatchSound([], e, m, flushes);
    TickTags(w1, flushes);
    var tags := TagsOf(SendBatch(e, m, flushes).muxer.sink.log);
    assert [] + tags == tags;
    SeenOrdered(w);
    if AllAtZero(Seen(w)) {
      ZeroThenAny(Seen(w), tags);
    }
    if tags == [] {
      assert Seen(w) + tags == Seen(w);
    } else {
      assert tags == [MetadataTag(w.engine.meta)] + tags[1..];
      if Ordered(Seen(w) + tags) {
        MetadataIsHeader(w.engine.meta);
        HeaderAtZero(Seen(w), MetadataTag(w.engine.meta), tags[1..]);
      }
    }
  }

  lemma MetadataIsHeader(meta: bytes)
    ensures IsHeaderStyle(MetadataTag(meta))
  {
  }

  lemma AttachFresh(e: Engine, room: nat)
    requires Fitting(e) && e.timebase.None?
    ensures var n := Attach(e, Sink([], room, false));
      n.muxer == Some(NewMux(Sink([], room, false))) && !n.metadataWritten && n.meta == e.meta && Fitting(n)
  {
    hide Fits;
  }

  lemma FreshSound(room: nat)
    ensures SoundAndFit([], NewMux(Sink([], room, false)))
  {
    NoBytesNoTags();
  }

  lemma SeenOrdered(w: World)
    requires TimelineSound(w) && w.engine.muxer.Some?
    ensures Ordered(Seen(w))
  {
    hide TagsOf;
  }

  lemma TickTags(w: World, flushes: bool)
    requires w.engine.muxer.Some?
    ensures Seen(Next(w, TickEv(true, flushes)))
         == w.past + TagsOf(SendBatch(w.engine, w.engine.muxer.value, flushes).muxer.sink.log)
  {
    hide SendBatch, TagsOf, Kept, Orphans, HasKeyframe, SortByDts;
  }
}
