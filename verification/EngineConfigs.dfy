/**
  The configurations that outlive a connection: what a muxer found inside packets is kept with the
  engine, and the next connection begins with it.
 */
module EngineConfigs {
  import opened Bytes
  import opened Media
  import opened FlvTags
  import opened Mux
  import opened MuxRoom
  import opened Timeline
  import opened TagLog
  import opened Publish
  import opened Decoding
  import opened Backpressure
  import opened Engines
  import opened EngineRoom
  import opened EngineRuns
  import opened EngineTimeline
  import opened EngineWire
  import Flv

  /** A muxer remembers the configurations whose sequence headers are out, and nothing else. */
  predicate Remembers(m: Mux) {
    m.videoSeq == m.avcc.Some? && m.audioSeq == m.asc.Some?
  }

  /** And its peer was shown them. */
  ghost predicate ShownConfigs(m: Mux) {
    && (m.avcc.Some? ==> forall d :: d in VideoConfigured(m.avcc.value) ==> d in Decoded(m))
    && (m.asc.Some? ==> forall d :: d in AudioConfigured(m.asc.value) ==> d in Decoded(m))
  }

  ghost predicate Kept(m: Mux) {
    Intact(m) && Remembers(m) && ShownConfigs(m)
  }

  lemma KeptGrows(m: Mux, n: Mux)
    requires Kept(m) && Intact(n) && Decoded(m) <= Decoded(n)
    requires n.avcc == m.avcc && n.asc == m.asc && n.videoSeq == m.videoSeq && n.audioSeq == m.audioSeq
    ensures Kept(n)
  {
    hide Intact, Decoded, VideoConfigured, AudioConfigured;
    assert forall d :: d in Decoded(m) ==> d in Decoded(n);
  }

  lemma FreshKept(room: nat)
    ensures Kept(NewMux(Sink([], room, false)))
  {
    NoBytesNoTags();
  }

  // ---------------------------------------------------------------------------------
  // The muxer's calls
  // ---------------------------------------------------------------------------------

  lemma HeaderKept(m: Mux)
    requires Kept(m)
    ensures Kept(EnsureHeader(m))
  {
    hide Intact, Decoded, Kept;
    KeptIntact(m);
    HeaderDecodesNothing(m);
    KeptGrows(m, EnsureHeader(m));
  }

  lemma KeptIntact(m: Mux)
    requires Kept(m)
    ensures Intact(m)
  {
  }

  lemma MetadataKept(m: Mux, meta: bytes)
    requires Kept(m) && |meta| < TWO_24
    ensures Kept(WriteMetadata(m, meta).0)
  {
    hide Intact, Decoded, Kept, Put, TagBytes;
    KeptIntact(m);
    MetadataDecodesNothing(m, meta);
    KeptGrows(m, WriteMetadata(m, meta).0);
  }

  lemma VideoSequenceKept(m: Mux, avcc: bytes)
    requires Kept(m) && FitsConfig(Some(avcc))
    ensures Kept(WriteVideoSequence(m, avcc).0)
  {
    hide Intact, Decoded, TagBytes, VideoConfigured, AudioConfigured, EnsureHeader, Flv.VideoConfigBody;
    HeaderKept(m);
    var h, n := EnsureHeader(m), WriteVideoSequence(m, avcc).0;
    if h.header && !h.videoSeq {
      VideoSequenceDecodes(h, avcc);
      WholeFits(h, avcc, []);
      ConfigTagRoom(h, Flv.TAG_VIDEO, Flv.VideoConfigBody(avcc));
      assert forall d :: d in Decoded(h) ==> d in Decoded(n);
      if !n.sink.dead {
        assert forall d :: d in VideoConfigured(avcc) ==> d in Decoded(n);
      }
    }
  }

  lemma WholeFits(m: Mux, avcc: bytes, asc: bytes)
    ensures |Flv.VideoConfigBody(avcc)| == 5 + |avcc| && |Flv.AudioConfigBody(asc)| == 2 + |asc|
    ensures EnsureHeader(m).header ==> EnsureHeader(EnsureHeader(m)) == EnsureHeader(m)
    ensures m.header ==> EnsureHeader(m) == m
  {
  }

  lemma AudioSequenceKept(m: Mux, asc: bytes)
    requires Kept(m) && FitsConfig(Some(asc))
    ensures Kept(WriteAudioSequence(m, asc).0)
  {
    hide Intact, Decoded, TagBytes, VideoConfigured, AudioConfigured, EnsureHeader, Flv.AudioConfigBody;
    HeaderKept(m);
    var h, n := EnsureHeader(m), WriteAudioSequence(m, asc).0;
    if h.header && !h.audioSeq {
      AudioSequenceDecodes(h, asc);
      WholeFits(h, [], asc);
      ConfigTagRoom(h, Flv.TAG_AUDIO, Flv.AudioConfigBody(asc));
      assert forall d :: d in Decoded(h) ==> d in Decoded(n);
      if !n.sink.dead {
        assert forall d :: d in AudioConfigured(asc) ==> d in Decoded(n);
      }
    }
  }

  lemma CodecsKept(m: Mux, avcc: Option<bytes>, asc: Option<bytes>)
    requires Kept(m) && FitsConfig(avcc) && FitsConfig(asc)
    ensures Kept(InitCodecs(m, avcc, asc).0)
  {
    hide Kept, WriteVideoSequence, WriteAudioSequence;
    if avcc.Some? {
      VideoSequenceKept(m, avcc.value);
    }
    var v := if avcc.Some? then WriteVideoSequence(m, avcc.value) else (m, Done);
    if asc.Some? {
      AudioSequenceKept(v.0, asc.value);
    }
  }

  lemma SniffKept(m: Mux, p: MediaPacket)
    requires Kept(m) && Fits(p)
    ensures Kept(SniffConfig(m, p).0)
  {
    hide Kept, WriteVideoSequence, WriteAudioSequence, AnnexBToAvcc, AdtsToAsc;
    if IsKeyframe(p) && AnnexBToAvcc(p.data).Some? {
      KeyConfigFits(p);
      VideoSequenceKept(m, AnnexBToAvcc(p.data).value);
    }
    if p.kind == Audio && AdtsToAsc(p.data).Some? {
      AscFits(p);
      AudioSequenceKept(m, AdtsToAsc(p.data).value);
    }
  }

  lemma KeyConfigFits(p: MediaPacket)
    requires Fits(p) && p.kind == Video
    ensures FitsConfig(AnnexBToAvcc(p.data))
  {
  }

  lemma MediaKept(m: Mux, p: MediaPacket)
    requires Kept(m) && m.header && Fits(p)
    ensures Kept(WriteMedia(m, p).0)
  {
    hide Intact, Decoded, Kept, Put, TagBytes, MediaTag, TrackTime, Fits, FrameAt, MediaShown;
    KeptIntact(m);
    MediaDecodes(m, p);
    KeptGrows(m, WriteMedia(m, p).0);
  }

  lemma PacketKept(m: Mux, p: MediaPacket)
    requires Kept(m) && Fits(p)
    ensures Kept(WritePacket(m, p).0)
  {
    hide Kept, EnsureHeader, SniffConfig, WriteMedia, Fits;
    HeaderKept(m);
    var h := EnsureHeader(m);
    if h.header {
      SniffKept(h, p);
      if SniffConfig(h, p).1 == Done {
        SniffKeepsHeader(h, p);
        MediaKept(SniffConfig(h, p).0, p);
      }
    }
  }

  lemma RebaseKept(m: Mux, kind: MediaKind, dts: int)
    requires Kept(m)
    ensures Kept(Rebase(m, kind, dts))
  {
    hide Intact, Decoded, Kept;
    KeptIntact(m);
    SameBytes(m, Rebase(m, kind, dts));
    KeptGrows(m, Rebase(m, kind, dts));
  }

  lemma WriteOrRebaseKept(m: Mux, p: MediaPacket)
    requires Kept(m) && Fits(p)
    ensures Kept(WriteOrRebase(m, p).0)
  {
    hide Kept, WritePacket, Fits, Rebase;
    PacketKept(m, p);
    var first := WritePacket(m, p);
    if first.1 == Ordering {
      RebaseKept(first.0, p.kind, p.dts);
      PacketKept(Rebase(first.0, p.kind, p.dts), p);
    }
  }

  lemma {:induction false} SendKept(m: Mux, batch: seq<MediaPacket>)
    requires Kept(m) && AllFit(batch)
    ensures Kept(Send(m, batch).muxer)
    decreases |batch|
  {
    hide Kept, WriteOrRebase, Fits;
    if batch != [] {
      assert Fits(batch[0]);
      WriteOrRebaseKept(m, batch[0]);
      SendKept(WriteOrRebase(m, batch[0]).0, batch[1..]);
    }
  }

  lemma {:induction false} StrictKept(m: Mux, batch: seq<MediaPacket>)
    requires Kept(m) && AllFit(batch)
    ensures Kept(SendStrict(m, batch).0)
    decreases |batch|
  {
    hide Kept, WritePacket, Fits;
    if batch != [] {
      assert Fits(batch[0]);
      PacketKept(m, batch[0]);
      StrictKept(WritePacket(m, batch[0]).0, batch[1..]);
    }
  }

  lemma SendBatchKept(e: Engine, m: Mux, flushes: bool)
    requires Kept(m) && Fitting(e)
    ensures Kept(SendBatch(e, m, flushes).muxer)
  {
    hide Kept, WriteMetadata, InitCodecs, Send, Batch, FitsConfig;
    MetadataKept(m, e.meta);
    var meta := if e.metadataWritten then (m, Done) else WriteMetadata(m, e.meta);
    CodecsKept(meta.0, e.avcc, e.asc);
    BatchFits(e);
    SendKept(Preamble(e, m).0, Batch(e));
  }

  // ---------------------------------------------------------------------------------
  // Runs
  // ---------------------------------------------------------------------------------

  ghost predicate KeptIn(e: Engine) {
    e.muxer.Some? ==> Kept(e.muxer.value)
  }

  lemma StepKept(w: World, ev: Event)
    requires KeptIn(w.engine) && Fitting(w.engine) && Orderly(w, ev)
    ensures KeptIn(Next(w, ev).engine)
  {
    hide Kept, SendBatch, SendStrict, InitCodecs, Batch, PushSeq, EnforceDropPolicy, BeforeLastKey, TagsOf, Orphans,
         HasKeyframe, FitsConfig, Fits, PushDrops, PolicyDrops;
    var e := w.engine;
    match ev
    case PushEv(_) =>
    case TickEv(_, flushes) =>
      if e.muxer.Some? {
        SendBatchKept(e, e.muxer.value, flushes);
      }
    case AttachEv(room) =>
      FreshKept(room);
      if e.timebase.Some? {
        var t := e.timebase.value;
        RestoredKept(room, t.origin, t.lastVideo, t.lastAudio);
      }
    case DetachEv =>
    case ConfigureEv(avcc, asc) =>
      if e.muxer.Some? {
        CodecsKept(e.muxer.value, avcc, asc);
      }
    case ResyncEv =>
    case FinishEv(flushes) =>
      if e.muxer.Some? {
        BatchFits(e);
        StrictKept(e.muxer.value, Batch(e));
      }
  }

  lemma RestoredKept(room: nat, origin: Option<int>, lastVideo: Option<int>, lastAudio: Option<int>)
    ensures Kept(RestoreTimebase(NewMux(Sink([], room, false)), origin, lastVideo, lastAudio))
  {
    NoBytesNoTags();
  }

  lemma {:induction false} RunKept(w: World, events: seq<Event>)
    requires KeptIn(w.engine) && TimelineSound(w) && Fitting(w.engine) && OrderlyRun(w, events)
    ensures KeptIn(Run(w, events).engine)
    decreases |events|
  {
    hide Next, KeptIn, TimelineSound, Fitting, Orderly;
    if events != [] {
      StepKept(w, events[0]);
      StepSound(w, events[0]);
      RunKept(Next(w, events[0]), events[1..]);
    }
  }

  // ---------------------------------------------------------------------------------
  // Across connections
  // ---------------------------------------------------------------------------------

  /** `after` is the configuration known before, or else one that the connection's peer was shown. */
  ghost predicate Learned(before: Option<bytes>, after: Option<bytes>, out: bool, shown: seq<Flv.Decoded>, video: bool)
  {
    && (before.Some? ==> after == before) && (out ==> after.Some?)
    && (before.None? && after.Some? ==>
          var told := if video then VideoConfigured(after.value) else AudioConfigured(after.value);
          forall d :: d in told ==> d in shown)
  }

  ghost predicate LearnedBoth(e: Engine, n: Engine, m: Mux) {
    && Learned(e.avcc, n.avcc, m.videoSeq, Decoded(m), true)
    && Learned(e.asc, n.asc, m.audioSeq, Decoded(m), false)
  }

  lemma OrLearns(e: Engine, n: Engine, m: Mux)
    requires Kept(m) && n.avcc == Or(e.avcc, m.avcc) && n.asc == Or(e.asc, m.asc)
    ensures LearnedBoth(e, n, m)
  {
    hide Intact, Decoded;
  }

  /** A successful tick and a detach keep with the engine what the connection's peer was shown. */
  lemma ConfigsSurvive(w: World, flushes: bool)
    requires KeptIn(w.engine) && Fitting(w.engine) && w.engine.muxer.Some?
    ensures var n := Next(w, DetachEv).engine; n.muxer.None? && LearnedBoth(w.engine, n, w.engine.muxer.value)
    ensures var (n, r) := Tick(w.engine, true, flushes);
      r.Muxed? ==> n.muxer.Some? && LearnedBoth(w.engine, n, n.muxer.value)
  {
    hide Kept, LearnedBoth, SendBatch, Batch, BeforeLastKey, TagsOf, Orphans, HasKeyframe, CutDrops;
    var e := w.engine;
    OrLearns(e, Next(w, DetachEv).engine, e.muxer.value);
    SendBatchKept(e, e.muxer.value, flushes);
    var (n, r) := Tick(e, true, flushes);
    if r.Muxed? {
      OrLearns(e, n, n.muxer.value);
    }
  }

  /** What the engine tells every new connection first. */
  function Opening(e: Engine): seq<Flv.Decoded> {
    (if e.avcc.Some? then VideoConfigured(e.avcc.value) else [])
    + if e.asc.Some? then AudioConfigured(e.asc.value) else []
  }

  /** With room for the preamble, the first tick of a connection begins with the configurations the engine knows. */
  lemma ConnectionOpens(w: World, room: nat, flushes: bool)
    requires Fitting(w.engine) && w.engine.muxer.None?
    requires PreambleBytes(w.engine.(metadataWritten := false), NewMux(Sink([], room, false))) <= room
    ensures var e := Next(Next(w, AttachEv(room)), TickEv(true, flushes)).engine;
      e.muxer.Some? && Opening(w.engine) <= Decoded(e.muxer.value)
  {
    hide Preamble, PreambleBytes, SendBatch, Decoded, TagsOf, Kept, Intact, FitsConfig, VideoConfigured,
         AudioConfigured,
         Orphans, HasKeyframe, Batch;
    var e := Attach(w.engine, Sink([], room, false));
    var m := e.muxer.value;
    FreshDecodesNothing(m);
    SamePreamble(w.engine, e, room);
    PreambleRoom(e, m);
    PreambleOpens(e, m);
    SendBatchExtends(e, m, flushes);
  }

  lemma SamePreamble(d: Engine, e: Engine, room: nat)
    requires d.muxer.None? && e == Attach(d, Sink([], room, false))
    ensures PreambleBytes(e, e.muxer.value) ==
      PreambleBytes(d.(metadataWritten := false), NewMux(Sink([], room, false)))
    ensures Opening(e) == Opening(d) && (Fitting(d) ==> Fitting(e))
  {
    hide Flv.VideoConfigBody, Flv.AudioConfigBody, VideoConfigured, AudioConfigured;
  }

  lemma FreshDecodesNothing(m: Mux)
    requires m.sink.log == [] && !m.header && !m.sink.dead
    ensures Intact(m) && Decoded(m) == []
  {
    NoBytesNoTags();
  }

  lemma PreambleOpens(e: Engine, m: Mux)
    requires Fitting(e) && Intact(m) && Decoded(m) == [] && !m.videoSeq && !m.audioSeq && !e.metadataWritten
    requires Preamble(e, m).1 == Done
    ensures Intact(Preamble(e, m).0) && Decoded(Preamble(e, m).0) == Opening(e)
  {
    hide WriteMetadata, WriteVideoSequence, WriteAudioSequence, Decoded, Intact, VideoConfigured, AudioConfigured,
         FILE_HEADER;
    MetadataDecodesNothing(m, e.meta);
    MetadataRoom(m, e.meta);
    var n := WriteMetadata(m, e.meta).0;
    if e.avcc.Some? {
      VideoSequenceDecodes(n, e.avcc.value);
      VideoSequenceRoom(n, e.avcc.value);
    }
    var v := if e.avcc.Some? then WriteVideoSequence(n, e.avcc.value).0 else n;
    if e.asc.Some? {
      AudioSequenceDecodes(v, e.asc.value);
      AudioSequenceRoom(v, e.asc.value);
    }
  }

  lemma SendBatchExtends(e: Engine, m: Mux, flushes: bool)
    requires Fitting(e) && Intact(Preamble(e, m).0) && Preamble(e, m).1 == Done
    ensures Decoded(Preamble(e, m).0) <= Decoded(SendBatch(e, m, flushes).muxer)
  {
    hide Preamble, Send, Batch, TagsOf, Intact, DecodeOne;
    var pre := Preamble(e, m).0;
    BatchFits(e);
    SendGrew(pre, Batch(e));
    var a, b := TagsOf(pre.sink.log), TagsOf(Send(pre, Batch(e)).muxer.sink.log);
    DecodeAppend(a, b[|a|..]);
    assert a + b[|a|..] == b;
  }

  // ---------------------------------------------------------------------------------
  // The latest configuration
  // ---------------------------------------------------------------------------------

  /** The last configuration of a track that the calls gave. */
  function LastGiven(events: seq<Event>, video: bool): Option<bytes> {
    if events == [] then None
    else
      var ev := events[|events| - 1];
      var given := if !ev.ConfigureEv? then None else if video then ev.avcc else ev.asc;
      if given.Some? then given else LastGiven(events[..|events| - 1], video)
  }

  function Cached(e: Engine, video: bool): Option<bytes> {
    if video then e.avcc else e.asc
  }

  lemma StepKnows(w: World, ev: Event, video: bool)
    ensures var given := if !ev.ConfigureEv? then None else if video then ev.avcc else ev.asc;
      var known := Cached(Next(w, ev).engine, video);
      if given.Some? then known == given else Cached(w.engine, video).Some? ==> known == Cached(w.engine, video)
  {
    hide SendBatch, SendStrict, InitCodecs, Batch, PushSeq, EnforceDropPolicy, Resync, TagsOf, Orphans, HasKeyframe,
         PushDrops, PolicyDrops;
  }

  /** Over any run the engine knows the last configuration it was given, whatever its muxers were told before. */
  lemma {:induction false} KnowsLatest(w: World, events: seq<Event>, video: bool)
    ensures LastGiven(events, video).Some? ==> Cached(Run(w, events).engine, video) == LastGiven(events, video)
    ensures LastGiven(events, video).None? && Cached(w.engine, video).Some? ==>
      Cached(Run(w, events).engine, video) == Cached(w.engine, video)
    decreases |events|
  {
    hide Next, Cached;
    if events != [] {
      var front, last := events[..|events| - 1], events[|events| - 1];
      KnowsLatest(w, front, video);
      StepKnows(Run(w, front), last, video);
      RunOneMore(w, front, last);
      assert front + [last] == events;
    }
  }

  lemma {:induction false} RunOneMore(w: World, events: seq<Event>, ev: Event)
    ensures Run(w, events + [ev]) == Next(Run(w, events), ev)
    decreases |events|
  {
    hide Next;
    var all := events + [ev];
    if events == [] {
      assert all == [ev] && all[1..] == [];
      assert Run(w, all) == Run(Next(w, ev), []);
    } else {
      assert all[0] == events[0] && all[1..] == events[1..] + [ev];
      RunOneMore(Next(w, events[0]), events[1..], ev);
    }
  }
}
