/**
  A connection that follows an outage without the awaiting flag: what decides whether it starts on a
  keyframe. The engine does not raise the flag again when an eviction takes the keyframe it had
  kept, so the first video packet that is left in the buffer, or else pushed, decides.
 */
module Evictions {
  import opened Bytes
  import opened Media
  import opened FlvTags
  import opened Mux
  import opened MuxRoom
  import opened Timeline
  import opened TagLog
  import opened Engines
  import opened EngineRuns
  import opened EngineTimeline
  import opened EngineWire
  import opened Resume

  // ---------------------------------------------------------------------------------
  // The first video frame of a list of tags
  // ---------------------------------------------------------------------------------

  function FirstVideoTag(tags: seq<FlvTag>): Option<FlvTag> {
    if tags == [] then None else if IsMedia(tags[0], Video) then Some(tags[0]) else FirstVideoTag(tags[1..])
  }

  lemma {:induction false} FramesFirst(tags: seq<FlvTag>)
    ensures FirstVideoTag(FramesOf(tags)) == FirstVideoTag(tags)
  {
    hide IsMedia;
    if tags != [] {
      FramesFirst(tags[1..]);
      if IsHeaderStyle(tags[0]) {
        assert FramesOf(tags) == FramesOf(tags[1..]);
      } else {
        assert ([tags[0]] + FramesOf(tags[1..]))[1..] == FramesOf(tags[1..]);
      }
    }
  }

  lemma {:induction false} FirstVideoAt(tags: seq<FlvTag>) returns (i: nat)
    ensures i <= |tags| && NoVideo(tags[..i]) && (i < |tags| ==> IsMedia(tags[i], Video))
    ensures FirstVideoTag(tags) == if i < |tags| then Some(tags[i]) else None
    ensures i == |tags| <==> NoVideo(tags)
  {
    hide IsMedia;
    i := 0;
    if tags != [] && !IsMedia(tags[0], Video) {
      var k := FirstVideoAt(tags[1..]);
      i := k + 1;
      assert forall n :: 0 < n < i ==> tags[n] == tags[1..][..k][n - 1];
    }
    assert i == |tags| ==> tags[..i] == tags;
  }

  lemma Shadowed(tags: seq<FlvTag>, i: nat, j: nat)
    requires i < j <= |tags| && IsMedia(tags[i], Video)
    ensures !NoVideo(tags[..j])
  {
    hide IsMedia;
    assert tags[..j][i] == tags[i];
  }

  /** A list with a video frame starts well exactly when its first one is a key frame behind a configuration. */
  lemma FirstDecides(tags: seq<FlvTag>, i: nat)
    requires i < |tags| && IsMedia(tags[i], Video) && NoVideo(tags[..i])
    ensures !NoVideo(tags) && (GoodStart(tags) <==> IsKeyTag(tags[i]) && HasConfig(tags[..i]))
  {
    hide IsMedia, IsKeyTag, HasConfig, NoVideo;
    assert tags[..|tags|] == tags;
    Shadowed(tags, i, |tags|);
    forall j | 0 <= j < |tags| && IsMedia(tags[j], Video) && NoVideo(tags[..j]) ensures j == i {
      if i < j {
        Shadowed(tags, i, j);
      } else if j < i {
        Shadowed(tags, j, i);
      }
    }
  }

  lemma ConfigStays(a: seq<FlvTag>, b: seq<FlvTag>)
    requires HasConfig(a) && a <= b
    ensures HasConfig(b)
  {
    hide IsVideoConfig;
    var c :| 0 <= c < |a| && IsVideoConfig(a[c]);
    assert b[c] == a[c];
  }

  lemma NoVideoJoins(a: seq<FlvTag>, b: seq<FlvTag>)
    requires NoVideo(a) && NoVideo(b)
    ensures NoVideo(a + b)
  {
    hide IsMedia;
  }

  /** After a configuration and no video yet: the connection starts well exactly when the next frame is a key one. */
  lemma StartsWell(a: seq<FlvTag>, b: seq<FlvTag>)
    requires NoVideo(a) && HasConfig(a)
    ensures NoVideo(a + b) <==> FirstVideoTag(b).None?
    ensures FirstVideoTag(b).Some? ==> (GoodStart(a + b) <==> IsKeyTag(FirstVideoTag(b).value))
  {
    hide IsMedia, IsKeyTag, NoVideo, HasConfig, GoodStart, FirstVideoTag;
    var i := FirstVideoAt(b);
    assert (a + b)[..|a| + i] == a + b[..i];
    NoVideoJoins(a, b[..i]);
    if i < |b| {
      FirstDecides(a + b, |a| + i);
      ConfigStays(a, a + b[..i]);
    } else {
      assert b[..i] == b;
    }
  }

  /** Once a video frame was seen, later tags change nothing. */
  lemma StaysDecided(a: seq<FlvTag>, b: seq<FlvTag>)
    requires !NoVideo(a) && a <= b
    ensures !NoVideo(b) && (GoodStart(b) <==> GoodStart(a))
  {
    hide IsMedia, IsKeyTag, HasConfig, NoVideo, GoodStart, FirstVideoTag;
    var i := FirstVideoAt(a);
    assert b[i] == a[i] && b[..i] == a[..i];
    FirstDecides(a, i);
    FirstDecides(b, i);
  }

  // ---------------------------------------------------------------------------------
  // One tick
  // ---------------------------------------------------------------------------------

  /** The first video frame a batch shows is that of its first video packet, which otherwise stays to be sent. */
  lemma {:induction false} SendShowsFirst(m: Mux, batch: seq<MediaPacket>)
    requires AllFit(batch)
    ensures var t := FirstVideoTag(SendFrames(m, batch));
      && (t.None? ==> FirstVideo(batch[Send(m, batch).sent..]) == FirstVideo(batch))
      && (t.Some? ==> FirstVideo(batch).Some? && IsKeyTag(t.value) == FirstVideo(batch).value.isKey)
    decreases |batch|
  {
    hide WriteOrRebase, FrameShown, Fits, Carries, Known, LeadBytes, FrameSize;
    if batch != [] {
      var p := batch[0];
      var (n, r) := WriteOrRebase(m, p);
      assert Fits(p);
      FrameShownIs(m, p);
      DoneShows(m, p);
      var rest := if r == Done then SendFrames(n, batch[1..]) else [];
      ShownFirst(FrameShown(m, p), p, rest);
      if r == Done {
        SendShowsFirst(n, batch[1..]);
        assert batch[Send(n, batch[1..]).sent + 1..] == batch[1..][Send(n, batch[1..]).sent..];
      } else {
        assert batch[0..] == batch;
      }
    }
  }

  lemma ShownFirst(shown: seq<FlvTag>, p: MediaPacket, rest: seq<FlvTag>)
    requires shown == [] || (|shown| == 1 && Carries(shown[0], p))
    ensures shown != [] && p.kind == Video ==>
      FirstVideoTag(shown + rest).Some? && IsKeyTag(FirstVideoTag(shown + rest).value) == p.isKey
    ensures shown == [] || p.kind == Audio ==> FirstVideoTag(shown + rest) == FirstVideoTag(rest)
  {
    if shown == [] {
      assert shown + rest == rest;
    } else {
      assert (shown + rest)[1..] == rest;
    }
  }

  /** Everything known about a tick that was to show the first video frame of its connection. */
  lemma TickDecides(e: Engine, m: Mux, flushes: bool)
    requires Fitting(e) && e.muxer == Some(m) && Started(m) && NoVideo(Tags(m)) && e.avcc.Some?
    ensures var r := SendBatch(e, m, flushes);
      var first := FirstVideo(Batch(e));
      && (NoVideo(Tags(r.muxer)) ==> Started(r.muxer) && FirstVideo(Batch(e)[r.sent..]) == first)
      && (!NoVideo(Tags(r.muxer)) ==> first.Some? && (GoodStart(Tags(r.muxer)) <==> first.value.isKey))
  {
    hide Preamble, Send, Batch, Grew, Intact, GoodStart, HasConfig, NoVideo, TagsOf, FitsConfig, SendFrames,
         ToldBySend, Fits, IsKeyTag, FramesOf;
    PreambleStarted(e, m);
    PreambleGrew(e, m);
    BatchFits(e);
    var pre, batch := Preamble(e, m), Batch(e);
    if pre.1 == Done {
      SendWire(pre.0, batch);
      SendShowsFirst(pre.0, batch);
      FirstFrameDecides(pre.0, Send(pre.0, batch).muxer, SendFrames(pre.0, batch));
    } else {
      assert batch[0..] == batch;
    }
  }

  lemma FirstFrameDecides(m: Mux, n: Mux, frames: seq<FlvTag>)
    requires Grew(m, n, frames, None) && NoVideo(Tags(m)) && HasConfig(Tags(m))
    ensures NoVideo(Tags(n)) <==> FirstVideoTag(frames).None?
    ensures NoVideo(Tags(n)) ==> Started(n)
    ensures FirstVideoTag(frames).Some? ==> (GoodStart(Tags(n)) <==> IsKeyTag(FirstVideoTag(frames).value))
  {
    hide TagsOf, FramesOf, Intact, Wellformed, IsMedia, IsKeyTag, NoVideo, HasConfig, FirstVideoTag;
    var more :| Added(m, n, more) && FramesOf(more) == frames && AllWellformed(more, None);
    FramesFirst(more);
    StartsWell(Tags(m), more);
    ConfigStays(Tags(m), Tags(n));
    if NoVideo(Tags(n)) {
      NothingToStart(Tags(n));
    }
  }

  lemma NothingToStart(tags: seq<FlvTag>)
    requires NoVideo(tags)
    ensures GoodStart(tags)
  {
  }

  // ---------------------------------------------------------------------------------
  // One connection
  // ---------------------------------------------------------------------------------

  /** Ticks, configurations and pushes that drop nothing, on one connection. */
  ghost predicate Steady(w: World, ev: Event) {
    match ev
    case PushEv(ps) => AllFit(ps) && PushAll(w.engine, ps).buffer.queue == w.engine.buffer.queue + ps
    case TickEv(_, _) => true
    case ConfigureEv(avcc, asc) => FitsConfig(avcc) && FitsConfig(asc)
    case _ => false
  }

  ghost predicate SteadyRun(w: World, events: seq<Event>)
    decreases |events|
  {
    events != [] ==> Steady(w, events[0]) && SteadyRun(Next(w, events[0]), events[1..])
  }

  function PushedBy(events: seq<Event>): seq<MediaPacket> {
    if events == [] then []
    else (if events[0].PushEv? then events[0].ps else []) + PushedBy(events[1..])
  }

  /** Before the first video frame `v` is the first one waiting or to come; afterwards it has decided. */
  ghost predicate Deciding(e: Engine, v: Option<MediaPacket>, later: seq<MediaPacket>) {
    && e.muxer.Some? && e.avcc.Some?
    && var tags := Tags(e.muxer.value);
       if NoVideo(tags) then
         && Started(e.muxer.value) && !e.awaitingKeyframe
         && VideoOrdered(e.buffer.queue + later) && FirstVideo(e.buffer.queue + later) == v
       else
         v.Some? && (GoodStart(tags) <==> v.value.isKey)
  }

  lemma {:induction false} FirstOfBoth(a: seq<MediaPacket>, b: seq<MediaPacket>)
    ensures FirstVideo(a + b) == if FirstVideo(a).Some? then FirstVideo(a) else FirstVideo(b)
  {
    if a == [] {
      assert a + b == b;
    } else {
      assert (a + b)[1..] == a[1..] + b;
      FirstOfBoth(a[1..], b);
    }
  }

  lemma {:induction false} KeptAll(q: seq<MediaPacket>)
    ensures Kept(q, false) == q
  {
    if q != [] {
      KeptAll(q[1..]);
    }
  }

  /** What a tick leaves of an ordered queue comes before what is pushed later. */
  lemma LeftoverOrdered(q: seq<MediaPacket>, later: seq<MediaPacket>, k: nat)
    requires VideoOrdered(q + later) && k <= |SortByDts(q)|
    ensures VideoOrdered(SortByDts(q)[k..] + later)
  {
    hide SortByDts;
    assert forall i :: 0 <= i < |q| ==> (q + later)[i] == q[i];
    assert forall j :: 0 <= j < |later| ==> (q + later)[|q| + j] == later[j];
    SortFirst(q);
    var s := SortByDts(q)[k..];
    forall i, j | 0 <= i < |s| && 0 <= j < |later| && s[i].kind == Video && later[j].kind == Video
      ensures s[i].dts <= later[j].dts
    {
      assert s[i] in SortByDts(q);
      var n :| 0 <= n < |q| && q[n] == s[i];
      assert (q + later)[n] == s[i] && (q + later)[|q| + j] == later[j];
    }
    forall i, j | 0 <= i < j < |later| && later[i].kind == Video && later[j].kind == Video
      ensures later[i].dts <= later[j].dts
    {
      assert (q + later)[|q| + i] == later[i] && (q + later)[|q| + j] == later[j];
    }
  }

  lemma TickUndecided(w: World, v: Option<MediaPacket>, later: seq<MediaPacket>, flushes: bool)
    requires Fitting(w.engine) && Deciding(w.engine, v, later) && NoVideo(Tags(w.engine.muxer.value))
    ensures Deciding(Next(w, TickEv(true, flushes)).engine, v, later)
  {
    hide SendBatch, SortByDts, Started, NoVideo, TagsOf, GoodStart, FitsConfig, VideoOrdered, Kept, Orphans,
         HasKeyframe, Fits, FirstVideo;
    var e, m := w.engine, w.engine.muxer.value;
    var r := SendBatch(e, m, flushes);
    KeptAll(e.buffer.queue);
    VideoPrefix(e.buffer.queue, later);
    SortFirst(e.buffer.queue);
    TickDecides(e, m, flushes);
    LeftoverOrdered(e.buffer.queue, later, r.sent);
    FirstOfBoth(e.buffer.queue, later);
    FirstOfBoth(Batch(e)[r.sent..], later);
    assert Batch(e)[r.sent..] + [] == Batch(e)[r.sent..];
    assert r.failure == Done ==> Batch(e)[r.sent..] == [];
  }

  lemma VideoPrefix(a: seq<MediaPacket>, b: seq<MediaPacket>)
    requires VideoOrdered(a + b)
    ensures VideoOrdered(a)
  {
    forall i, j | 0 <= i < j < |a| && a[i].kind == Video && a[j].kind == Video ensures a[i].dts <= a[j].dts {
      assert (a + b)[i] == a[i] && (a + b)[j] == a[j];
    }
  }

  lemma TickDecided(w: World, v: Option<MediaPacket>, later: seq<MediaPacket>, flushes: bool)
    requires Fitting(w.engine) && Deciding(w.engine, v, later) && !NoVideo(Tags(w.engine.muxer.value))
    requires Intact(w.engine.muxer.value)
    ensures Deciding(Next(w, TickEv(true, flushes)).engine, v, later)
  {
    hide SendBatch, Batch, Started, NoVideo, TagsOf, GoodStart, FitsConfig, VideoOrdered, Orphans, HasKeyframe,
         Fits, FirstVideo, Intact, Grew, TickFrames, ToldByTick;
    var e, m := w.engine, w.engine.muxer.value;
    SendBatchGrew(e, m, flushes);
    GrewIntact(m, SendBatch(e, m, flushes).muxer, TickFrames(e, true), Some(e.meta));
    StaysDecided(Tags(m), Tags(SendBatch(e, m, flushes).muxer));
  }

  lemma PushDecides(w: World, v: Option<MediaPacket>, later: seq<MediaPacket>, ps: seq<MediaPacket>)
    requires Steady(w, PushEv(ps)) && Deciding(w.engine, v, ps + later)
    ensures Deciding(Next(w, PushEv(ps)).engine, v, later)
  {
    hide PushSeq, EnforceDropPolicy, PushDrops, PolicyDrops, Started, NoVideo, TagsOf, GoodStart, VideoOrdered,
         Fits;
    assert w.engine.buffer.queue + ps + later == w.engine.buffer.queue + (ps + later);
  }

  lemma ConfigureDecides(w: World, v: Option<MediaPacket>, later: seq<MediaPacket>, avcc: Option<bytes>,
                         asc: Option<bytes>)
    requires Deciding(w.engine, v, later) && FitsConfig(avcc) && FitsConfig(asc) && Intact(w.engine.muxer.value)
    ensures Deciding(Next(w, ConfigureEv(avcc, asc)).engine, v, later)
  {
    hide InitCodecs, NoVideo, TagsOf, GoodStart, HasConfig, VideoOrdered, FitsConfig, Intact, Grew;
    var m := w.engine.muxer.value;
    if NoVideo(Tags(m)) {
      CodecsStarted(m, avcc, asc);
    } else {
      CodecsGrew(m, avcc, asc);
      GrewIntact(m, InitCodecs(m, avcc, asc).0, [], None);
      StaysDecided(Tags(m), Tags(InitCodecs(m, avcc, asc).0));
    }
  }

  lemma StepDecides(w: World, v: Option<MediaPacket>, ev: Event, later: seq<MediaPacket>)
    requires TimelineSound(w) && Fitting(w.engine) && Steady(w, ev)
    requires Deciding(w.engine, v, (if ev.PushEv? then ev.ps else []) + later)
    ensures Deciding(Next(w, ev).engine, v, later)
  {
    hide Next, Deciding, Fitting, Tick, Ordered, Marked, Intact;
    assert [] + later == later;
    AttachedWhenDeciding(w.engine, v, (if ev.PushEv? then ev.ps else []) + later);
    match ev
    case PushEv(ps) => PushDecides(w, v, later, ps);
    case ConfigureEv(avcc, asc) => ConfigureDecides(w, v, later, avcc, asc);
    case TickEv(healthy, flushes) =>
      if !healthy {
        UnhealthyStays(w, flushes);
      } else if NoVideo(Tags(w.engine.muxer.value)) {
        TickUndecided(w, v, later, flushes);
      } else {
        TickDecided(w, v, later, flushes);
      }
  }

  lemma AttachedWhenDeciding(e: Engine, v: Option<MediaPacket>, later: seq<MediaPacket>)
    requires Deciding(e, v, later)
    ensures e.muxer.Some?
  {
  }

  lemma UnhealthyStays(w: World, flushes: bool)
    ensures Next(w, TickEv(false, flushes)).engine == w.engine
  {
  }

  lemma {:induction false} RunDecides(w: World, v: Option<MediaPacket>, events: seq<Event>)
    requires TimelineSound(w) && Fitting(w.engine) && SteadyRun(w, events) && Deciding(w.engine, v, PushedBy(events))
    ensures Deciding(Run(w, events).engine, v, [])
    decreases |events|
  {
    hide Next, Deciding, Fitting, TimelineSound, Steady;
    if events != [] {
      assert Orderly(w, events[0]) by { SteadyIsOrderly(w, events[0]); }
      StepDecides(w, v, events[0], PushedBy(events[1..]));
      StepSound(w, events[0]);
      RunDecides(Next(w, events[0]), v, events[1..]);
    }
  }

  lemma SteadyIsOrderly(w: World, ev: Event)
    requires Steady(w, ev)
    ensures Orderly(w, ev)
  {
  }

  /**
    An engine without a transport that awaits no keyframe: once its next connection has shown a video
    frame, that connection started on a keyframe exactly when the first video packet of what is in the
    buffer, or else of what was pushed since, is one.
   */
  lemma StartDecided(w: World, room: nat, events: seq<Event>)
    requires TimelineSound(w) && Fitting(w.engine) && w.engine.muxer.None?
    requires w.engine.avcc.Some? && !w.engine.awaitingKeyframe
    requires SteadyRun(Next(w, AttachEv(room)), events) && VideoOrdered(w.engine.buffer.queue + PushedBy(events))
    ensures var tags := Current(Run(Next(w, AttachEv(room)), events).engine);
      NoVideo(tags) || (GoodStart(tags) <==> StartsOnKey(w.engine.buffer.queue + PushedBy(events)))
  {
    hide Next, Run, Fitting, TimelineSound, SteadyRun, GoodStart, NoVideo, TagsOf, VideoOrdered, PushedBy;
    var v := FirstVideo(w.engine.buffer.queue + PushedBy(events));
    AttachDecides(w, room, PushedBy(events));
    AttachSteady(w, room);
    RunDecides(Next(w, AttachEv(room)), v, events);
  }

  /** In particular after pushes that evict or cut anything, the kept keyframe included. */
  lemma EvictionOrphans(w: World, ps: seq<MediaPacket>, room: nat, events: seq<Event>)
    requires TimelineSound(w) && Fitting(w.engine) && w.engine.muxer.None? && AllFit(ps)
    requires w.engine.avcc.Some? && !w.engine.awaitingKeyframe
    requires var u := Next(w, PushEv(ps));
      SteadyRun(Next(u, AttachEv(room)), events) && VideoOrdered(u.engine.buffer.queue + PushedBy(events))
    ensures var u := Next(w, PushEv(ps));
      var tags := Current(Run(Next(u, AttachEv(room)), events).engine);
      NoVideo(tags) || (GoodStart(tags) <==> StartsOnKey(u.engine.buffer.queue + PushedBy(events)))
  {
    hide Run, Fitting, TimelineSound, SteadyRun, GoodStart, NoVideo, TagsOf, VideoOrdered, PushedBy, PushSeq,
         PushDrops, PolicyDrops, EnforceDropPolicy;
    StepSound(w, PushEv(ps));
    StartDecided(Next(w, PushEv(ps)), room, events);
  }

  lemma AttachSteady(w: World, room: nat)
    requires TimelineSound(w) && Fitting(w.engine) && w.engine.muxer.None?
    ensures TimelineSound(Next(w, AttachEv(room))) && Fitting(Next(w, AttachEv(room)).engine)
  {
    hide Next, TimelineSound, Fitting;
    StepSound(w, AttachEv(room));
  }

  lemma AttachDecides(w: World, room: nat, later: seq<MediaPacket>)
    requires w.engine.avcc.Some? && !w.engine.awaitingKeyframe && VideoOrdered(w.engine.buffer.queue + later)
    ensures Deciding(Next(w, AttachEv(room)).engine, FirstVideo(w.engine.buffer.queue + later), later)
  {
    hide VideoOrdered, FirstVideo;
    NoBytesNoTags();
    NoTagsNoVideo();
  }

  // ---------------------------------------------------------------------------------
  // After a finish that failed
  // ---------------------------------------------------------------------------------

  /** A strict write that leaves the connection without video leaves nothing else to start badly. */
  lemma PacketQuiet(m: Mux, p: MediaPacket)
    requires Started(m) && Fits(p) && NoVideo(Tags(WritePacket(m, p).0))
    ensures Started(WritePacket(m, p).0) && NoVideo(Tags(m))
  {
    hide TagsOf, NoVideo, Intact, GoodStart, HasConfig, Fits, Grew, PacketShown;
    var n := WritePacket(m, p).0;
    PacketGrew(m, p);
    GrewIntact(m, n, PacketShown(m, p), None);
    if !NoVideo(Tags(m)) {
      StaysDecided(Tags(m), Tags(n));
    }
    if p.kind == Video && !p.isKey {
      InterKeepsConfig(m, p);
      NothingToStart(Tags(n));
      if m.videoSeq {
        ConfigStays(Tags(m), Tags(n));
      }
    } else {
      PacketStarted(m, p);
    }
  }

  lemma InterKeepsConfig(m: Mux, p: MediaPacket)
    requires p.kind == Video && !p.isKey
    ensures WritePacket(m, p).0.videoSeq == m.videoSeq
  {
    hide TagBytes, MediaTag, TrackTime;
  }

  lemma {:induction false} StrictGrew(m: Mux, batch: seq<MediaPacket>)
    requires Intact(m) && AllFit(batch)
    ensures var n := SendStrict(m, batch).0; Intact(n) && Tags(m) <= Tags(n)
    decreases |batch|
  {
    hide WritePacket, Intact, TagsOf, Fits, Grew, PacketShown;
    if batch != [] {
      assert Fits(batch[0]);
      var (n, r) := WritePacket(m, batch[0]);
      PacketGrew(m, batch[0]);
      GrewIntact(m, n, PacketShown(m, batch[0]), None);
      if r == Done {
        StrictGrew(n, batch[1..]);
      }
    }
  }

  lemma {:induction false} StrictQuiet(m: Mux, batch: seq<MediaPacket>)
    requires Started(m) && AllFit(batch) && NoVideo(Tags(SendStrict(m, batch).0))
    ensures Started(SendStrict(m, batch).0)
    decreases |batch|
  {
    hide WritePacket, GoodStart, HasConfig, Intact, NoVideo, TagsOf, Fits, Grew, PacketShown;
    if batch != [] {
      assert Fits(batch[0]);
      var (n, r) := WritePacket(m, batch[0]);
      if r == Done {
        PacketGrew(m, batch[0]);
        GrewIntact(m, n, PacketShown(m, batch[0]), None);
        StrictGrew(n, batch[1..]);
        if !NoVideo(Tags(n)) {
          StaysDecided(Tags(n), Tags(SendStrict(n, batch[1..]).0));
        }
        PacketQuiet(m, batch[0]);
        StrictQuiet(n, batch[1..]);
      } else {
        PacketQuiet(m, batch[0]);
      }
    }
  }

  /**
    A finish that failed has emptied the buffer and leaves its connection attached. If that connection
    has shown no video, and a keyframe was not awaited or was lost with the batch, then it starts well
    exactly when the first video packet pushed afterwards is a keyframe. In the other case the flag is
    still up and inter-frames are dropped (`FailedFinishReady`).
   */
  lemma FailedFinishDecides(w: World, flushes: bool, events: seq<Event>)
    requires TimelineSound(w) && Fitting(w.engine) && w.engine.avcc.Some?
    requires w.engine.muxer.Some? && Started(w.engine.muxer.value) && Finish(w.engine, flushes).1 != Done
    requires !w.engine.awaitingKeyframe || HasKeyframe(w.engine.buffer.queue)
    requires NoVideo(Current(Next(w, FinishEv(flushes)).engine))
    requires SteadyRun(Next(w, FinishEv(flushes)), events) && VideoOrdered(PushedBy(events))
    ensures var tags := Current(Run(Next(w, FinishEv(flushes)), events).engine);
      NoVideo(tags) || (GoodStart(tags) <==> StartsOnKey(PushedBy(events)))
  {
    hide Next, Run, Finish, FinishMux, Batch, Fitting, TimelineSound, SteadyRun, Started, GoodStart, NoVideo,
         TagsOf, VideoOrdered, PushedBy, HasKeyframe, Ready;
    var v := FirstVideo(PushedBy(events));
    StepSound(w, FinishEv(flushes));
    FailedLeaves(w, flushes);
    assert [] + PushedBy(events) == PushedBy(events);
    RunDecides(Next(w, FinishEv(flushes)), v, events);
  }

  lemma FailedLeaves(w: World, flushes: bool)
    requires Fitting(w.engine) && w.engine.muxer.Some? && Started(w.engine.muxer.value)
    requires Finish(w.engine, flushes).1 != Done && NoVideo(Current(Next(w, FinishEv(flushes)).engine))
    ensures var e := Next(w, FinishEv(flushes)).engine;
      && e.muxer.Some? && Started(e.muxer.value) && NoVideo(Tags(e.muxer.value))
      && e.avcc == w.engine.avcc && e.buffer.queue == []
      && e.awaitingKeyframe == (w.engine.awaitingKeyframe && !HasKeyframe(w.engine.buffer.queue))
  {
    hide Finish, Batch, Started, NoVideo, TagsOf, HasKeyframe, TickDrops, SendStrict, Fits, FitsConfig;
    FailedFinishReady(w.engine, flushes);
    BatchFits(w.engine);
    StrictQuiet(w.engine.muxer.value, Batch(w.engine));
  }
}
