/**
  Runs from a new engine that end where a promise fails: a keyframe evicted during an outage, and a
  transport attached over another one.
 */
module Counterexamples {
  import opened Bytes
  import opened Media
  import opened FlvTags
  import opened Mux
  import opened MuxRoom
  import opened Timeline
  import opened TagLog
  import opened Backpressure
  import opened Engines
  import opened EngineRoom
  import opened EngineRuns
  import opened EngineTimeline
  import opened EngineWire
  import opened Resume
  import opened Evictions

  /** The bytes a fresh connection takes before its first frame. */
  function FreshBytes(e: Engine): nat {
    PreambleBytes(e.(metadataWritten := false), NewMux(Sink([], 0, false)))
  }

  /** On a fresh connection metadata and sequence headers go out exactly when their bytes find room. */
  lemma FreshRoom(e: Engine, room: nat)
    requires !e.metadataWritten
    ensures var m := NewMux(Sink([], room, false));
      var (n, r) := Preamble(e, m);
      && (r == Done <==> FreshBytes(e) <= room)
      && (r == Done ==> SameClock(n, AfterPreamble(e, m)) && Room(n.sink) == room - FreshBytes(e))
  {
    hide Preamble, FILE_HEADER;
    PreambleRoom(e, NewMux(Sink([], room, false)));
  }

  lemma Unroll(w: World, events: seq<Event>)
    ensures Run(w, []) == w
    ensures events != [] ==> Run(w, events) == Run(Next(w, events[0]), events[1..])
  {
    hide Next;
  }

  // ---------------------------------------------------------------------------------
  // An eviction that orphans
  // ---------------------------------------------------------------------------------

  ghost predicate AllInter(q: seq<MediaPacket>) {
    forall i :: 0 <= i < |q| ==> q[i].kind == Video && !q[i].isKey
  }

  /** Pushing a full buffer's worth leaves exactly what was pushed. */
  lemma {:induction false} PushSeqLast(b: Buffer, ps: seq<MediaPacket>)
    requires 0 < b.capacity && |b.queue| <= b.capacity
    ensures var all := b.queue + ps;
      PushSeq(b, ps).queue == if |all| <= b.capacity then all else all[|all| - b.capacity..]
    decreases |ps|
  {
    var all := b.queue + ps;
    if ps != [] {
      var b1 := Push(b, ps[0]);
      PushSeqLast(b1, ps[1..]);
      assert b1.queue + ps[1..] == if |b.queue| < b.capacity then all else all[1..];
    } else {
      assert all == b.queue;
    }
  }

  lemma InterUncut(profile: LatencyProfile, b: Buffer)
    requires AllInter(b.queue)
    ensures EnforceDropPolicy(profile, b) == b
  {
    var n := BeforeLastKey(b.queue);
    assert n == 0 && b.queue[0..] == b.queue;
  }

  lemma InterBatch(e: Engine)
    requires AllInter(e.buffer.queue) && VideoOrdered(e.buffer.queue) && e.buffer.queue != [] && !e.awaitingKeyframe
    ensures Batch(e) != [] && Batch(e)[0] == e.buffer.queue[0]
  {
    hide SortByDts;
    var q := e.buffer.queue;
    KeptAll(q);
    SortElements(q);
    SortFirst(q);
    assert SortByDts(q)[0] in SortByDts(q);
  }

  /** With room for the first frame, a tick shows it. */
  lemma FirstShown(e: Engine, m: Mux, flushes: bool)
    requires Fitting(e) && e.muxer == Some(m) && Started(m) && NoVideo(Tags(m)) && e.avcc.Some?
    requires Batch(e) != [] && Batch(e)[0].kind == Video && !Batch(e)[0].isKey
    requires var (n, r) := Preamble(e, m);
      r == Done && n.header && n.videoSeq && 11 + FrameSize(Batch(e)[0]) <= Room(n.sink)
    ensures !NoVideo(Tags(SendBatch(e, m, flushes).muxer))
  {
    hide Preamble, Send, Batch, Grew, Intact, GoodStart, HasConfig, NoVideo, TagsOf, FitsConfig, Fits,
         WriteOrRebase, FrameShown, Carries, FrameSize, FramesOf, FirstVideoTag;
    PreambleStarted(e, m);
    PreambleGrew(e, m);
    BatchFits(e);
    var n, batch := Preamble(e, m).0, Batch(e);
    SendWire(n, batch);
    FrameShownIs(n, batch[0]);
    FirstOf(n, batch);
    FirstFrameDecides(n, Send(n, batch).muxer, SendFrames(n, batch));
  }

  lemma FirstOf(n: Mux, batch: seq<MediaPacket>)
    requires batch != [] && batch[0].kind == Video && Fits(batch[0]) && FrameShown(n, batch[0]) != []
    ensures FirstVideoTag(SendFrames(n, batch)).Some?
  {
    hide WriteOrRebase, FrameShown, Fits, Carries;
    FrameShownIs(n, batch[0]);
    var (m, r) := WriteOrRebase(n, batch[0]);
    ShownFirst(FrameShown(n, batch[0]), batch[0], if r == Done then SendFrames(m, batch[1..]) else []);
  }

  /** A known configuration, a keyframe, an outage with a full buffer of inter-frames, and a new connection. */
  function OutageRun(avcc: bytes, first: nat, key: MediaPacket, inters: seq<MediaPacket>, room: nat): seq<Event> {
    [ConfigureEv(Some(avcc), None), AttachEv(first), PushEv([key]), DetachEv, PushEv(inters), AttachEv(room),
     TickEv(true, true)]
  }

  /** After the outage, before the new connection: the inter-frames fill the buffer and nothing is awaited. */
  ghost predicate AfterOutage(w: World, meta: bytes, avcc: bytes, inters: seq<MediaPacket>) {
    var e := w.engine;
    && e.buffer.queue == inters && e.muxer.None? && e.timebase == Some(Timebase(None, None, None))
    && e.meta == meta && e.avcc == Some(avcc) && e.asc.None? && !e.awaitingKeyframe
    && w.past == [] && w.ended == []
  }

  /** The keyframe waits on a fresh connection with a known configuration. */
  ghost predicate KeyWaiting(w: World, meta: bytes, avcc: bytes, first: nat, key: MediaPacket) {
    var e := w.engine;
    && e.buffer.queue == [key] && e.muxer == Some(NewMux(Sink([], first, false)))
    && e.meta == meta && e.avcc == Some(avcc) && e.asc.None? && w.past == [] && w.ended == []
  }

  lemma KeyReached(profile: LatencyProfile, meta: bytes, avcc: bytes, first: nat, key: MediaPacket)
    ensures var w := Next(Next(Next(NewWorld(profile, meta), ConfigureEv(Some(avcc), None)), AttachEv(first)),
                          PushEv([key]));
      && KeyWaiting(w, meta, avcc, first, key)
      && w.engine.buffer.capacity == PacketBudget(profile)
  {
    hide PushDrops, PolicyDrops, TagsOf, PushSeq;
    NoBytesNoTags();
    PushSeqLast(NewEngine(profile, meta).buffer, [key]);
    PushSeqConserves(NewEngine(profile, meta).buffer, [key]);
    assert [] + [key] == [key];
  }

  /** The detach finds the keyframe in front, and the flag stays down. */
  lemma KeyHeld(w: World, meta: bytes, avcc: bytes, first: nat, key: MediaPacket)
    requires KeyWaiting(w, meta, avcc, first, key) && IsKeyframe(key)
    ensures AfterOutage(Next(w, DetachEv), meta, avcc, [key])
    ensures Next(w, DetachEv).engine.buffer.capacity == w.engine.buffer.capacity
  {
    hide TagsOf, CutDrops;
    NoBytesNoTags();
    assert [key][0..] == [key];
    assert BeforeLastKey([key]) == 0;
  }

  lemma KeyEvicted(w: World, meta: bytes, avcc: bytes, key: MediaPacket, inters: seq<MediaPacket>)
    requires AfterOutage(w, meta, avcc, [key]) && AllInter(inters)
    requires |inters| == w.engine.buffer.capacity > 0
    ensures AfterOutage(Next(w, PushEv(inters)), meta, avcc, inters)
  {
    hide PushSeq, PushDrops, PolicyDrops, EnforceDropPolicy, AllInter;
    PushSeqLast(w.engine.buffer, inters);
    assert ([key] + inters)[1..] == inters;
    InterUncut(w.engine.profile, PushSeq(w.engine.buffer, inters));
  }

  lemma OutageSound(w: World, meta: bytes, avcc: bytes, inters: seq<MediaPacket>)
    requires AfterOutage(w, meta, avcc, inters) && |meta| < TWO_24 && FitsConfig(Some(avcc)) && AllFit(inters)
    ensures TimelineSound(w) && Fitting(w.engine)
  {
    NothingOrdered();
  }

  /** The first tick of the new connection shows a video frame, and it is an inter-frame. */
  lemma OrphanShown(w: World, meta: bytes, avcc: bytes, inters: seq<MediaPacket>, room: nat)
    requires AfterOutage(w, meta, avcc, inters) && |meta| < TWO_24 && FitsConfig(Some(avcc)) && AllFit(inters)
    requires AllInter(inters) && VideoOrdered(inters) && inters != []
    requires FreshBytes(w.engine) + 11 + FrameSize(inters[0]) <= room
    ensures var tags := Current(Next(Next(w, AttachEv(room)), TickEv(true, true)).engine);
      !NoVideo(tags) && !GoodStart(tags)
  {
    hide Next, Fitting, TimelineSound, GoodStart, NoVideo, TagsOf, VideoOrdered, FrameSize, FreshBytes;
    OutageSound(w, meta, avcc, inters);
    var u := Next(w, AttachEv(room));
    OneTick(u);
    NothingPushed();
    assert inters + [] == inters;
    StartDecided(w, room, [TickEv(true, true)]);
    OrphanSeen(w, meta, avcc, inters, room);
  }

  lemma OneTick(w: World)
    ensures SteadyRun(w, [TickEv(true, true)]) && Run(w, [TickEv(true, true)]) == Next(w, TickEv(true, true))
  {
    hide Next;
    assert [TickEv(true, true)][1..] == [];
    assert SteadyRun(Next(w, TickEv(true, true)), []);
    Unroll(w, [TickEv(true, true)]);
    Unroll(Next(w, TickEv(true, true)), []);
  }

  lemma NothingPushed()
    ensures PushedBy([TickEv(true, true)]) == []
  {
    assert [TickEv(true, true)][1..] == [];
  }

  lemma OrphanSeen(w: World, meta: bytes, avcc: bytes, inters: seq<MediaPacket>, room: nat)
    requires AfterOutage(w, meta, avcc, inters) && |meta| < TWO_24 && FitsConfig(Some(avcc)) && AllFit(inters)
    requires AllInter(inters) && VideoOrdered(inters) && inters != []
    requires FreshBytes(w.engine) + 11 + FrameSize(inters[0]) <= room
    ensures !NoVideo(Current(Next(Next(w, AttachEv(room)), TickEv(true, true)).engine))
  {
    hide Preamble, Batch, SendBatch, GoodStart, NoVideo, TagsOf, VideoOrdered, FrameSize, FitsConfig, Fits, Kept,
         Orphans, HasKeyframe, SortByDts;
    NoBytesNoTags();
    NoTagsNoVideo();
    var e, m := Attach(w.engine, Sink([], room, false)), NewMux(Sink([], room, false));
    OutageSound(w, meta, avcc, inters);
    AttachSteady(w, room);
    FreshRoom(e, room);
    InterBatch(e);
    assert Started(m) && Fitting(e);
    FirstShown(e, m, true);
  }

  /**
    From a new engine: the video configuration is known, a keyframe is pushed and the connection lost
    with it in the buffer. A full buffer of inter-frames then evicts it, and the next connection shows
    its peer an inter-frame first, on every profile.
   */
  lemma EvictedKeyframe(profile: LatencyProfile, meta: bytes, avcc: bytes, first: nat, key: MediaPacket,
                        inters: seq<MediaPacket>, room: nat)
    requires |meta| < TWO_24 && FitsConfig(Some(avcc)) && IsKeyframe(key)
    requires AllInter(inters) && AllFit(inters) && VideoOrdered(inters) && |inters| == PacketBudget(profile)
    requires FreshBytes(NewEngine(profile, meta).(avcc := Some(avcc))) + 11 + FrameSize(inters[0]) <= room
    ensures !GoodStart(Current(Run(NewWorld(profile, meta), OutageRun(avcc, first, key, inters, room)).engine))
  {
    hide Next, Run, GoodStart, TagsOf, VideoOrdered, FrameSize, AllFit, AllInter, AfterOutage;
    var w := NewWorld(profile, meta);
    KeyReached(profile, meta, avcc, first, key);
    var h := Next(Next(Next(w, ConfigureEv(Some(avcc), None)), AttachEv(first)), PushEv([key]));
    KeyHeld(h, meta, avcc, first, key);
    var d := Next(h, DetachEv);
    KeyEvicted(d, meta, avcc, key, inters);
    SamePreamble(Next(d, PushEv(inters)), NewEngine(profile, meta).(avcc := Some(avcc)), meta, avcc, inters);
    OrphanShown(Next(d, PushEv(inters)), meta, avcc, inters, room);
    OutageRuns(w, avcc, first, key, inters, room);
  }

  lemma SamePreamble(w: World, e: Engine, meta: bytes, avcc: bytes, inters: seq<MediaPacket>)
    requires AfterOutage(w, meta, avcc, inters) && e.meta == meta && e.avcc == Some(avcc) && e.asc.None?
    ensures FreshBytes(w.engine) == FreshBytes(e)
  {
  }

  lemma OutageRuns(w: World, avcc: bytes, first: nat, key: MediaPacket, inters: seq<MediaPacket>, room: nat)
    ensures var d := Next(Next(Next(Next(w, ConfigureEv(Some(avcc), None)), AttachEv(first)), PushEv([key])), DetachEv);
      Run(w, OutageRun(avcc, first, key, inters, room))
        == Next(Next(Next(d, PushEv(inters)), AttachEv(room)), TickEv(true, true))
  {
    hide Next, Run;
    var all := OutageRun(avcc, first, key, inters, room);
    var d := Next(Next(Next(Next(w, ConfigureEv(Some(avcc), None)), AttachEv(first)), PushEv([key])), DetachEv);
    RunFour(w, all);
    assert all[4..] == [PushEv(inters), AttachEv(room), TickEv(true, true)];
    RunThree(d, all[4..]);
  }

  lemma RunThree(w: World, events: seq<Event>)
    requires |events| == 3
    ensures Run(w, events) == Next(Next(Next(w, events[0]), events[1]), events[2])
  {
    hide Next, Run;
    Unroll(w, events);
    Unroll(Next(w, events[0]), events[1..]);
    Unroll(Next(Next(w, events[0]), events[1]), events[1..][1..]);
    Unroll(Next(Next(Next(w, events[0]), events[1]), events[2]), []);
    assert events[1..][1..][1..] == [];
  }

  lemma RunFour(w: World, events: seq<Event>)
    requires |events| >= 4
    ensures Run(w, events) == Run(Next(Next(Next(Next(w, events[0]), events[1]), events[2]), events[3]), events[4..])
  {
    hide Next, Run;
    Unroll(w, events);
    Unroll(Next(w, events[0]), events[1..]);
    Unroll(Next(Next(w, events[0]), events[1]), events[1..][1..]);
    Unroll(Next(Next(Next(w, events[0]), events[1]), events[2]), events[1..][1..][1..]);
    assert events[1..][1..][1..][1..] == events[4..];
  }

  // ---------------------------------------------------------------------------------
  // A finish that loses the keyframe
  // ---------------------------------------------------------------------------------

  /**
    A keyframe without parameter sets in band waits out a lost connection; a finish on the next one
    fails, as it writes no preamble and finds no configuration, and the stream goes on.
   */
  function LostKeyRun(avcc: bytes, first: nat, key: MediaPacket, room: nat, inter: MediaPacket): seq<Event> {
    [ConfigureEv(Some(avcc), None), AttachEv(first), PushEv([key]), DetachEv,
     AttachEv(room), FinishEv(true), PushEv([inter]), TickEv(true, true)]
  }

  /** On the new connection only the file header went out; the keyframe is gone and none is awaited. */
  ghost predicate KeyLost(w: World, meta: bytes, avcc: bytes, room: nat) {
    var e := w.engine;
    && e.buffer.queue == [] && !e.awaitingKeyframe && 0 < e.buffer.capacity
    && !e.metadataWritten && e.timebase.None?
    && e.muxer == Some(EnsureHeader(NewMux(Sink([], room, false))))
    && e.meta == meta && e.avcc == Some(avcc) && e.asc.None? && w.past == [] && w.ended == []
  }

  /** The finish of a keyframe whose configuration is only cached fails on a live transport. */
  lemma FinishWithoutConfig(m: Mux, key: MediaPacket)
    requires IsKeyframe(key) && AnnexBToAvcc(key.data).None? && !m.videoSeq && EnsureHeader(m).header
    ensures SendStrict(m, [key]) == (EnsureHeader(m), Config)
  {
    hide Put, FILE_HEADER, AnnexBToAvcc;
  }

  lemma HeaderFits(room: nat)
    requires 13 <= room
    ensures var h := EnsureHeader(NewMux(Sink([], room, false)));
      && h.header && !h.sink.dead && Room(h.sink) == room - 13
      && h == NewMux(Sink([], room, false)).(header := true, sink := h.sink)
  {
    HeaderLength();
  }

  lemma KeyForgotten(w: World, meta: bytes, avcc: bytes, key: MediaPacket, room: nat)
    requires AfterOutage(w, meta, avcc, [key]) && IsKeyframe(key) && AnnexBToAvcc(key.data).None? && 13 <= room
    requires 0 < w.engine.buffer.capacity
    ensures var u := Next(w, AttachEv(room));
      && Finish(u.engine, true).1 == Config && KeyLost(Next(u, FinishEv(true)), meta, avcc, room)
  {
    hide TagsOf, SendStrict, EnsureHeader, AnnexBToAvcc, SortByDts, Kept, Orphans, HasKeyframe, IsKeyframe;
    var u := Next(w, AttachEv(room));
    OneKept(key, false);
    HeaderFits(room);
    FinishWithoutConfig(NewMux(Sink([], room, false)), key);
  }

  lemma KeyLostSound(w: World, meta: bytes, avcc: bytes, room: nat)
    requires KeyLost(w, meta, avcc, room) && 13 <= room && |meta| < TWO_24 && FitsConfig(Some(avcc))
    ensures TimelineSound(w) && Fitting(w.engine)
    ensures var m := w.engine.muxer.value; Started(m) && Tags(m) == [] && NoVideo(Tags(m))
  {
    hide EnsureHeader, Intact, TagsOf, GoodStart;
    var m := NewMux(Sink([], room, false));
    HeaderFits(room);
    NoBytesNoTags();
    NoTagsNoVideo();
    FreshIntact(m);
    HeaderStarted(m);
    NothingOrdered();
  }

  lemma FreshIntact(m: Mux)
    requires m.sink.log == [] && !m.header && !m.videoSeq
    ensures Intact(m) && Started(m)
  {
    NoBytesNoTags();
    NoTagsNoVideo();
  }

  lemma InterWaits(w: World, meta: bytes, avcc: bytes, room: nat, inter: MediaPacket)
    requires KeyLost(w, meta, avcc, room) && inter.kind == Video && !inter.isKey
    ensures var n := Next(w, PushEv([inter]));
      n.engine == w.engine.(buffer := n.engine.buffer) && n.engine.buffer.queue == [inter]
  {
    hide PushDrops, PolicyDrops, PushSeq, EnsureHeader, AllInter;
    PushSeqLast(w.engine.buffer, [inter]);
    assert [] + [inter] == [inter];
    assert AllInter([inter]) by { OneInter(inter); }
    InterUncut(w.engine.profile, PushSeq(w.engine.buffer, [inter]));
  }

  lemma OneInter(p: MediaPacket)
    requires p.kind == Video && !p.isKey
    ensures AllInter([p])
  {
  }

  /** The events after the finish are steady, and all that was pushed is the inter-frame. */
  lemma OnePush(w: World, p: MediaPacket)
    requires Fits(p) && Next(w, PushEv([p])).engine.buffer.queue == w.engine.buffer.queue + [p]
    ensures var events := [PushEv([p]), TickEv(true, true)];
      && SteadyRun(w, events) && PushedBy(events) == [p]
      && Run(w, events) == Next(Next(w, PushEv([p])), TickEv(true, true))
  {
    hide Next, Run, Fits;
    var events := [PushEv([p]), TickEv(true, true)];
    var u := Next(w, PushEv([p]));
    OneTick(u);
    NothingPushed();
    assert events[1..] == [TickEv(true, true)];
    assert Steady(w, PushEv([p])) by { PushIsSteady(w, p); }
    Unroll(w, events);
  }

  lemma PushIsSteady(w: World, p: MediaPacket)
    requires Fits(p) && Next(w, PushEv([p])).engine.buffer.queue == w.engine.buffer.queue + [p]
    ensures Steady(w, PushEv([p]))
  {
    hide PushDrops, PolicyDrops, PushSeq, EnforceDropPolicy, Fits;
  }

  /** With room for it, the inter-frame is what the tick shows first. */
  lemma InterShown(w: World, meta: bytes, avcc: bytes, room: nat, inter: MediaPacket)
    requires KeyLost(w, meta, avcc, room) && |meta| < TWO_24 && FitsConfig(Some(avcc))
    requires inter.kind == Video && !inter.isKey && Fits(inter)
    requires FreshBytes(w.engine) + 11 + FrameSize(inter) <= room
    ensures !NoVideo(Current(Next(Next(w, PushEv([inter])), TickEv(true, true)).engine))
  {
    hide Preamble, SendBatch, GoodStart, NoVideo, TagsOf, FrameSize, FitsConfig, Fits, Kept, Orphans, HasKeyframe,
         SortByDts, EnsureHeader, PushSeq, EnforceDropPolicy, PushDrops, PolicyDrops;
    FreshNotLess(w.engine);
    HeaderFits(room);
    KeyLostSound(w, meta, avcc, room);
    InterWaits(w, meta, avcc, room, inter);
    var u := Next(w, PushEv([inter]));
    var e, m := u.engine, u.engine.muxer.value;
    OneKept(inter, false);
    PreambleRoom(e, m);
    HeaderAlreadyOut(e, m);
    FirstShown(e, m, true);
  }

  lemma FreshNotLess(e: Engine)
    ensures FreshBytes(e) >= 13
  {
    HeaderLength();
  }

  lemma HeaderAlreadyOut(e: Engine, m: Mux)
    requires !e.metadataWritten && m.header && !m.videoSeq && !m.audioSeq
    ensures PreambleBytes(e, m) == FreshBytes(e) - 13
  {
    hide FILE_HEADER;
    HeaderLength();
  }

  /**
    From a new engine: nothing is evicted and video comes in order, and yet after the failed finish the
    connection shows its peer an inter-frame first.
   */
  lemma KeyframeLostByFinish(profile: LatencyProfile, meta: bytes, avcc: bytes, first: nat, key: MediaPacket,
                             room: nat, inter: MediaPacket)
    requires |meta| < TWO_24 && FitsConfig(Some(avcc)) && IsKeyframe(key) && AnnexBToAvcc(key.data).None?
    requires inter.kind == Video && !inter.isKey && Fits(inter)
    requires FreshBytes(NewEngine(profile, meta).(avcc := Some(avcc))) + 11 + FrameSize(inter) <= room
    ensures var all := LostKeyRun(avcc, first, key, room, inter);
      var tags := Current(Run(NewWorld(profile, meta), all).engine);
      && Finish(Run(NewWorld(profile, meta), all[..5]).engine, true).1 == Config
      && !NoVideo(tags) && !GoodStart(tags)
  {
    hide Next, Run, GoodStart, NoVideo, TagsOf, FrameSize, AfterOutage, KeyWaiting, KeyLost, Fitting, TimelineSound,
         FreshBytes, VideoOrdered, Deciding, Started, Finish, AnnexBToAvcc;
    var w, all := NewWorld(profile, meta), LostKeyRun(avcc, first, key, room, inter);
    FreshNotLess(NewEngine(profile, meta).(avcc := Some(avcc)));
    KeyReached(profile, meta, avcc, first, key);
    var h := Next(Next(Next(w, all[0]), all[1]), all[2]);
    KeyHeld(h, meta, avcc, first, key);
    var d := Next(h, DetachEv);
    KeyForgotten(d, meta, avcc, key, room);
    var f := Next(Next(d, AttachEv(room)), FinishEv(true));
    LostFresh(f, NewEngine(profile, meta).(avcc := Some(avcc)), meta, avcc, room);
    StartsOnInter(f, meta, avcc, room, inter);
    RunFour(w, all);
    RunFour(d, all[4..]);
    assert all[4..][4..] == [];
    RunFour(w, all[..5]);
    assert all[..5][4..] == [AttachEv(room)] && [AttachEv(room)][1..] == [];
    Unroll(d, [AttachEv(room)]);
    Unroll(Next(d, AttachEv(room)), []);
    Unroll(Next(Next(f, all[6]), all[7]), []);
  }

  lemma LostFresh(w: World, e: Engine, meta: bytes, avcc: bytes, room: nat)
    requires KeyLost(w, meta, avcc, room) && e.meta == meta && e.avcc == Some(avcc) && e.asc.None?
    ensures FreshBytes(w.engine) == FreshBytes(e)
  {
  }

  lemma StartsOnInter(w: World, meta: bytes, avcc: bytes, room: nat, inter: MediaPacket)
    requires KeyLost(w, meta, avcc, room) && |meta| < TWO_24 && FitsConfig(Some(avcc))
    requires inter.kind == Video && !inter.isKey && Fits(inter)
    requires FreshBytes(w.engine) + 11 + FrameSize(inter) <= room
    ensures var tags := Current(Next(Next(w, PushEv([inter])), TickEv(true, true)).engine);
      !NoVideo(tags) && !GoodStart(tags)
  {
    hide Next, Run, GoodStart, NoVideo, TagsOf, FrameSize, Fitting, TimelineSound, FreshBytes, Started,
         EnsureHeader, Fits;
    var events := [PushEv([inter]), TickEv(true, true)];
    FreshNotLess(w.engine);
    KeyLostSound(w, meta, avcc, room);
    InterWaits(w, meta, avcc, room, inter);
    InterShown(w, meta, avcc, room, inter);
    assert [] + [inter] == [inter];
    OnePush(w, inter);
    assert FirstVideo([inter]) == Some(inter);
    RunDecides(w, Some(inter), events);
  }

  // ---------------------------------------------------------------------------------
  // A transport attached over another one
  // ---------------------------------------------------------------------------------

  /** Two audio packets go out, and a second transport is attached over the first. */
  function ReattachRun(asc: bytes, a: MediaPacket, b: MediaPacket, room: nat, again: nat): seq<Event> {
    [ConfigureEv(None, Some(asc)), AttachEv(room), PushEv([a, b]), TickEv(true, true),
     AttachEv(again), TickEv(true, true)]
  }

  lemma {:induction false} FramesIn(tags: seq<FlvTag>, t: FlvTag)
    requires t in FramesOf(tags)
    ensures t in tags && !IsHeaderStyle(t)
  {
    hide IsMedia;
    if t !in FramesOf(tags[1..]) {
      assert t == tags[0];
    } else {
      FramesIn(tags[1..], t);
    }
  }

  /** On a fresh audio connection a packet one tick after the first gets its distance from it. */
  lemma SecondLater(n: Mux, a: MediaPacket, b: MediaPacket)
    requires n.header && n.audioSeq && n.origin.None? && n.lastAudio.None?
    requires a.kind == Audio && b.kind == Audio && a.dts < b.dts
    requires BytesFor(n, a) + 11 + FrameSize(b) <= Room(n.sink)
    ensures WriteOrRebase(n, a).1 == Done
    ensures var m := WriteOrRebase(n, a).0; |FrameShown(m, b)| == 1 && FrameShown(m, b)[0].ts > 0
  {
    hide FrameSize, StripAdts, SniffConfig, EnsureHeader, WritePacket, AdtsToAsc;
    WriteSucceeds(n, a);
    var m := WriteOrRebase(n, a).0;
    assert SameClock(m, Advanced(n, a));
    assert m.origin == Some(a.dts) && m.lastAudio == Some(0) && m.header && m.audioSeq;
    WriteSucceeds(m, b);
    LeadRoom(m, b);
  }

  lemma TwoSorted(a: MediaPacket, b: MediaPacket)
    requires a.dts < b.dts
    ensures Kept([a, b], false) == [a, b] && SortByDts([a, b]) == [a, b]
  {
    KeptAll([a, b]);
    assert [a, b][1..] == [b] && [b][1..] == [];
    assert SortByDts([]) == [] && SortByDts([b]) == [b];
  }

  /** Two audio packets wait on a fresh connection whose audio configuration is known. */
  ghost predicate TwoWaiting(w: World, meta: bytes, asc: bytes, a: MediaPacket, b: MediaPacket, room: nat) {
    var e := w.engine;
    && e.buffer.queue == [a, b] && !e.awaitingKeyframe && e.muxer == Some(NewMux(Sink([], room, false)))
    && !e.metadataWritten && e.timebase.None?
    && e.meta == meta && e.avcc.None? && e.asc == Some(asc) && w.past == [] && w.ended == []
  }

  lemma TwoReached(profile: LatencyProfile, meta: bytes, asc: bytes, a: MediaPacket, b: MediaPacket, room: nat)
    ensures TwoWaiting(Next(Next(Next(NewWorld(profile, meta), ConfigureEv(None, Some(asc))), AttachEv(room)),
                            PushEv([a, b])), meta, asc, a, b, room)
  {
    hide PushDrops, PolicyDrops, TagsOf, PushSeq;
    NoBytesNoTags();
    PushSeqLast(NewEngine(profile, meta).buffer, [a, b]);
    assert [] + [a, b] == [a, b];
  }

  lemma TwoSound(w: World, meta: bytes, asc: bytes, a: MediaPacket, b: MediaPacket, room: nat)
    requires TwoWaiting(w, meta, asc, a, b, room)
    requires |meta| < TWO_24 && FitsConfig(Some(asc)) && Fits(a) && Fits(b)
    ensures TimelineSound(w) && Fitting(w.engine)
  {
    hide Fits, Intact, Ordered, Marked, TagsOf;
    FreshSound(room);
  }

  /** After the tick a frame above zero was seen. */
  lemma SecondSeen(w: World, meta: bytes, asc: bytes, a: MediaPacket, b: MediaPacket, room: nat)
    requires TwoWaiting(w, meta, asc, a, b, room)
    requires |meta| < TWO_24 && FitsConfig(Some(asc)) && Fits(a) && Fits(b)
    requires a.kind == Audio && b.kind == Audio && a.dts < b.dts
    requires FreshBytes(w.engine) + TAG_OVERHEAD + FrameSize(a) + 11 + FrameSize(b) <= room
    ensures !AllAtZero(Seen(Next(w, TickEv(true, true))))
  {
    hide Preamble, SendBatch, Send, Fits, FrameSize, TagsOf, FitsConfig, Kept, SortByDts, WriteOrRebase, FrameShown,
         FreshBytes, Grew, Intact, IsMedia, HasKeyframe, Orphans, Carries;
    var e, m := w.engine, NewMux(Sink([], room, false));
    TwoSound(w, meta, asc, a, b, room);
    NoBytesNoTags();
    FreshRoom(e, room);
    TwoSorted(a, b);
    var n := Preamble(e, m).0;
    SecondLater(n, a, b);
    SendBatchGrew(e, m, true);
    GrewTags(m, SendBatch(e, m, true).muxer, TickFrames(e, true), Some(e.meta));
    assert [a, b][1..] == [b];
    var t := FrameShown(WriteOrRebase(n, a).0, b)[0];
    assert t in SendFrames(n, [a, b]);
    var tags := TagsOf(SendBatch(e, m, true).muxer.sink.log);
    assert t in FramesOf(tags);
    FramesIn(tags, t);
    TickTags(w, true);
    assert Seen(Next(w, TickEv(true, true))) == tags;
    var i :| 0 <= i < |tags| && tags[i] == t;
  }

  /**
    From a new engine: two audio packets are sent and a second transport is attached over the first
    one. Its metadata tag sits at zero, behind the frame already seen.
   */
  lemma ReattachedBehind(profile: LatencyProfile, meta: bytes, asc: bytes, a: MediaPacket, b: MediaPacket, room: nat,
                         again: nat)
    requires |meta| < TWO_24 && FitsConfig(Some(asc)) && Fits(a) && Fits(b)
    requires a.kind == Audio && b.kind == Audio && a.dts < b.dts
    requires FreshBytes(NewEngine(profile, meta).(asc := Some(asc))) + TAG_OVERHEAD + FrameSize(a) + 11 + FrameSize(b)
             <= room
    requires 24 + |meta| <= again
    ensures !Ordered(Seen(Run(NewWorld(profile, meta), ReattachRun(asc, a, b, room, again))))
  {
    hide Next, Run, Seen, Ordered, Fits, FrameSize, AllAtZero, TimelineSound, Fitting, FILE_HEADER;
    var events := ReattachRun(asc, a, b, room, again);
    var w := Next(Next(Next(NewWorld(profile, meta), events[0]), events[1]), events[2]);
    TwoReached(profile, meta, asc, a, b, room);
    TwoSound(w, meta, asc, a, b, room);
    SecondSeen(w, meta, asc, a, b, room);
    StepSound(w, events[3]);
    TickKeeps(w);
    ReattachForgets(Next(w, events[3]), again, true);
    RunFour(NewWorld(profile, meta), events);
    Unroll(Next(w, events[3]), events[4..]);
    Unroll(Next(Next(w, events[3]), events[4]), events[4..][1..]);
    Unroll(Next(Next(Next(w, events[3]), events[4]), events[5]), []);
    assert events[4..][1..][1..] == [];
  }

  lemma TickKeeps(w: World)
    requires w.engine.muxer.Some?
    ensures var e := Next(w, TickEv(true, true)).engine; e.meta == w.engine.meta && e.muxer.Some?
  {
    hide SendBatch, Kept, Orphans, SortByDts, HasKeyframe;
  }
}
