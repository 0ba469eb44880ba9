/**
  After a lost connection the stream resumes on a keyframe: on every connection that follows a
  detach with known video configuration, the first frame of the video track is a keyframe and
  the video sequence header comes before it.
 */
module Resume {
  import opened Bytes
  import opened Media
  import opened FlvTags
  import opened Mux
  import opened Timeline
  import opened Backpressure
  import opened Engines
  import opened EngineRuns
  import opened EngineTimeline
  import TagLog
  import Flv
  import H264

  // ---------------------------------------------------------------------------------
  // Queues
  // ---------------------------------------------------------------------------------

  function FirstVideo(q: seq<MediaPacket>): Option<MediaPacket> {
    if q == [] then None else if q[0].kind == Video then Some(q[0]) else FirstVideo(q[1..])
  }

  predicate StartsOnKey(q: seq<MediaPacket>) {
    FirstVideo(q).Some? && FirstVideo(q).value.isKey
  }

  /** The next drain of video begins with a keyframe, whenever it comes. */
  predicate Ready(q: seq<MediaPacket>, awaiting: bool) {
    awaiting || StartsOnKey(q)
  }

  ghost predicate VideoOrdered(q: seq<MediaPacket>) {
    forall i, j :: 0 <= i < j < |q| && q[i].kind == Video && q[j].kind == Video ==> q[i].dts <= q[j].dts
  }

  lemma {:induction false} KeptStarts(q: seq<MediaPacket>, awaiting: bool)
    requires Ready(q, awaiting)
    ensures StartsOnKey(Kept(q, awaiting)) || (FirstVideo(Kept(q, awaiting)) == None && awaiting && !HasKeyframe(q))
  {
    if q != [] {
      HasKeyframeHead(q);
      if IsOrphan(q[0], awaiting) || q[0].kind == Audio {
        KeptStarts(q[1..], awaiting);
      }
      if !IsOrphan(q[0], awaiting) {
        assert Kept(q, awaiting)[1..] == Kept(q[1..], awaiting && !IsKeyframe(q[0]));
      }
    }
  }

  lemma HasKeyframeHead(q: seq<MediaPacket>)
    requires q != []
    ensures HasKeyframe(q) ==> IsKeyframe(q[0]) || HasKeyframe(q[1..])
  {
    if HasKeyframe(q) && !IsKeyframe(q[0]) {
      var k :| 0 <= k < |q| && IsKeyframe(q[k]);
      assert IsKeyframe(q[1..][k - 1]);
    }
  }

  lemma {:induction false} KeptOrdered(q: seq<MediaPacket>, awaiting: bool)
    requires VideoOrdered(q)
    ensures VideoOrdered(Kept(q, awaiting))
    ensures forall p :: p in Kept(q, awaiting) ==> p in q
  {
    if q != [] {
      KeptOrdered(q[1..], awaiting && !IsKeyframe(q[0]));
      KeptOrdered(q[1..], awaiting);
      var rest := Kept(q[1..], awaiting && !IsKeyframe(q[0]));
      forall j | 0 <= j < |rest| && q[0].kind == Video && rest[j].kind == Video ensures q[0].dts <= rest[j].dts {
        assert rest[j] in q[1..];
      }
    }
  }

  lemma {:induction false} InsertFirst(p: MediaPacket, s: seq<MediaPacket>)
    requires VideoOrdered(s)
    requires p.kind == Video ==> forall i :: 0 <= i < |s| && s[i].kind == Video ==> p.dts <= s[i].dts
    ensures VideoOrdered(Insert(p, s))
    ensures FirstVideo(Insert(p, s)) == if p.kind == Video then Some(p) else FirstVideo(s)
    ensures forall x :: x in Insert(p, s) ==> x == p || x in s
  {
    if s == [] {
      assert FirstVideo([p]) == if p.kind == Video then Some(p) else FirstVideo([p][1..]);
    } else if p.dts <= s[0].dts {
      assert ([p] + s)[1..] == s;
    } else {
      assert forall i :: 0 <= i < |s[1..]| ==> s[1..][i] == s[i + 1];
      InsertFirst(p, s[1..]);
      var rest := Insert(p, s[1..]);
      assert ([s[0]] + rest)[1..] == rest;
      forall j | 0 <= j < |rest| && s[0].kind == Video && rest[j].kind == Video ensures s[0].dts <= rest[j].dts {
        assert rest[j] in rest;
      }
    }
  }

  /** The stable sort keeps an ordered track's order, so its first frame stays first. */
  lemma {:induction false} SortFirst(s: seq<MediaPacket>)
    requires VideoOrdered(s)
    ensures VideoOrdered(SortByDts(s)) && FirstVideo(SortByDts(s)) == FirstVideo(s)
    ensures forall x :: x in SortByDts(s) ==> x in s
  {
    if s != [] {
      SortFirst(s[1..]);
      var rest := SortByDts(s[1..]);
      forall i | 0 <= i < |rest| && s[0].kind == Video && rest[i].kind == Video ensures s[0].dts <= rest[i].dts {
        assert rest[i] in s[1..];
        var k :| 0 <= k < |s[1..]| && s[1..][k] == rest[i];
        assert s[k + 1] == rest[i];
      }
      InsertFirst(s[0], rest);
    }
  }

  lemma BatchStarts(e: Engine)
    requires VideoOrdered(e.buffer.queue) && Ready(e.buffer.queue, e.awaitingKeyframe)
    ensures StartsOnKey(Batch(e)) || (FirstVideo(Batch(e)) == None && Drained(e).awaitingKeyframe)
  {
    KeptStarts(e.buffer.queue, e.awaitingKeyframe);
    KeptOrdered(e.buffer.queue, e.awaitingKeyframe);
    SortFirst(Kept(e.buffer.queue, e.awaitingKeyframe));
  }

  lemma BatchOrdered(e: Engine)
    requires VideoOrdered(e.buffer.queue)
    ensures VideoOrdered(Batch(e))
  {
    KeptOrdered(e.buffer.queue, e.awaitingKeyframe);
    SortFirst(Kept(e.buffer.queue, e.awaitingKeyframe));
  }

  // ---------------------------------------------------------------------------------
  // Connections
  // ---------------------------------------------------------------------------------

  ghost predicate NoVideo(tags: seq<FlvTag>) {
    forall i :: 0 <= i < |tags| ==> !IsMedia(tags[i], Video)
  }

  predicate IsVideoConfig(t: FlvTag) {
    t.mtype == Flv.TAG_VIDEO && |t.body| >= 2 && t.body[0] == 0x17 && t.body[1] == 0
  }

  ghost predicate HasConfig(tags: seq<FlvTag>) {
    exists i :: 0 <= i < |tags| && IsVideoConfig(tags[i])
  }

  predicate IsKeyTag(t: FlvTag) {
    |t.body| > 0 && t.body[0] / 16 == 1
  }

  /** The first frame of the video track, if there is one yet, is a keyframe behind its configuration. */
  ghost predicate GoodStart(tags: seq<FlvTag>) {
    forall i :: 0 <= i < |tags| && IsMedia(tags[i], Video) && NoVideo(tags[..i]) ==>
      IsKeyTag(tags[i]) && HasConfig(tags[..i])
  }

  lemma AppendTag(tags: seq<FlvTag>, t: FlvTag)
    requires GoodStart(tags)
    requires IsMedia(t, Video) && NoVideo(tags) ==> IsKeyTag(t) && HasConfig(tags)
    ensures GoodStart(tags + [t])
    ensures NoVideo(tags + [t]) <==> NoVideo(tags) && !IsMedia(t, Video)
    ensures HasConfig(tags) || IsVideoConfig(t) ==> HasConfig(tags + [t])
  {
    hide IsMedia, IsVideoConfig, IsKeyTag;
    var more := tags + [t];
    forall i | 0 <= i < |more| && IsMedia(more[i], Video) && NoVideo(more[..i])
      ensures IsKeyTag(more[i]) && HasConfig(more[..i])
    {
      if i < |tags| {
        assert more[..i] == tags[..i];
      } else {
        assert more[..i] == tags;
      }
    }
    assert forall i :: 0 <= i < |tags| ==> more[i] == tags[i];
    assert more[|tags|] == t;
    if NoVideo(more) {
      assert forall i :: 0 <= i < |tags| ==> !IsMedia(more[i], Video);
    }
    if HasConfig(tags) {
      var i :| 0 <= i < |tags| && IsVideoConfig(tags[i]);
      assert IsVideoConfig(more[i]);
    }
    if IsVideoConfig(t) {
      assert IsVideoConfig(more[|tags|]);
    }
  }

  function Tags(m: Mux): seq<FlvTag> {
    TagsOf(m.sink.log)
  }

  ghost predicate Started(m: Mux) {
    Intact(m) && GoodStart(Tags(m)) && (m.videoSeq ==> HasConfig(Tags(m)))
  }

  /** A write that is seen whole, or cut short by a failure. */
  lemma TagStarted(m: Mux, t: FlvTag)
    requires Started(m) && m.header && Encodable(t)
    requires IsMedia(t, Video) && NoVideo(Tags(m)) ==> IsKeyTag(t) && HasConfig(Tags(m))
    ensures var m' := m.(sink := Put(m.sink, TagBytes(t)));
            && Started(m')
            && (NoVideo(Tags(m)) && !IsMedia(t, Video) ==> NoVideo(Tags(m')))
            && (!NoVideo(Tags(m)) ==> !NoVideo(Tags(m')))
            && (!m'.sink.dead && IsMedia(t, Video) ==> !NoVideo(Tags(m')))
            && (!m'.sink.dead && IsVideoConfig(t) ==> HasConfig(Tags(m')))
  {
    hide TagBytes, Drain, StepOf, IsMedia, GoodStart, NoVideo, HasConfig, IsKeyTag, IsVideoConfig, TagsOf;
    if !m.sink.dead {
      PutTagSeen(m.sink, t);
      TagLength(t);
      assert Tags(m) + [] == Tags(m);
      AppendTag(Tags(m), t);
      assert Intact(m.(sink := Put(m.sink, TagBytes(t)))) by { TagLog.IntactAfter(m, t); }
    }
  }

  lemma HeaderStarted(m: Mux)
    requires Started(m)
    ensures Started(EnsureHeader(m)) && Tags(EnsureHeader(m)) == Tags(m)
  {
    hide GoodStart, HasConfig, Drain, StepOf, TagsOf;
    PutHeaderSeen(m);
  }

  lemma MetadataStarted(m: Mux, meta: bytes)
    requires Started(m) && |meta| < TWO_24
    ensures var m' := WriteMetadata(m, meta).0;
            Started(m') && m'.videoSeq == m.videoSeq && (NoVideo(Tags(m')) <==> NoVideo(Tags(m)))
  {
    hide GoodStart, HasConfig, TagsOf, TagBytes, NoVideo;
    HeaderStarted(m);
    var h := EnsureHeader(m);
    if h.header {
      TagStarted(h, TagAt(Flv.TAG_SCRIPT, HeaderTs(h), meta));
    }
  }

  lemma VideoSequenceStarted(m: Mux, avcc: bytes)
    requires Started(m) && FitsConfig(Some(avcc))
    ensures var (m', r) := WriteVideoSequence(m, avcc);
            && Started(m') && (NoVideo(Tags(m')) <==> NoVideo(Tags(m)))
            && (r == Done ==> m'.videoSeq) && (m.videoSeq ==> m'.videoSeq)
  {
    hide GoodStart, HasConfig, TagsOf, TagBytes, NoVideo, Put;
    HeaderStarted(m);
    var h := EnsureHeader(m);
    if h.header && !h.videoSeq {
      var t := TagAt(Flv.TAG_VIDEO, HeaderTs(h), Flv.VideoConfigBody(avcc));
      assert IsVideoConfig(t) && !IsMedia(t, Video);
      TagStarted(h, t);
    }
  }

  lemma AudioSequenceStarted(m: Mux, asc: bytes)
    requires Started(m) && FitsConfig(Some(asc))
    ensures var m' := WriteAudioSequence(m, asc).0;
            Started(m') && m'.videoSeq == m.videoSeq && (NoVideo(Tags(m')) <==> NoVideo(Tags(m)))
  {
    hide GoodStart, HasConfig, TagsOf, TagBytes, NoVideo, Put;
    HeaderStarted(m);
    var h := EnsureHeader(m);
    if h.header && !h.audioSeq {
      TagStarted(h, TagAt(Flv.TAG_AUDIO, HeaderTs(h), Flv.AudioConfigBody(asc)));
    }
  }

  lemma CodecsStarted(m: Mux, avcc: Option<bytes>, asc: Option<bytes>)
    requires Started(m) && FitsConfig(avcc) && FitsConfig(asc)
    ensures var (m', r) := InitCodecs(m, avcc, asc);
            && Started(m') && (NoVideo(Tags(m')) <==> NoVideo(Tags(m)))
            && (r == Done && avcc.Some? ==> m'.videoSeq) && (m.videoSeq ==> m'.videoSeq)
  {
    hide WriteVideoSequence, WriteAudioSequence, Started, NoVideo, TagsOf;
    if avcc.Some? {
      VideoSequenceStarted(m, avcc.value);
    }
    var v := if avcc.Some? then WriteVideoSequence(m, avcc.value) else (m, Done);
    if asc.Some? {
      AudioSequenceStarted(v.0, asc.value);
    }
  }

  lemma PreambleStarted(e: Engine, m: Mux)
    requires Started(m) && Fitting(e)
    ensures var (m', r) := Preamble(e, m);
            && Started(m') && (NoVideo(Tags(m')) <==> NoVideo(Tags(m)))
            && (r == Done && e.avcc.Some? ==> m'.videoSeq) && (m.videoSeq ==> m'.videoSeq)
  {
    hide WriteMetadata, InitCodecs, Started, NoVideo, TagsOf, FitsConfig;
    MetadataStarted(m, e.meta);
    var meta := if e.metadataWritten then (m, Done) else WriteMetadata(m, e.meta);
    CodecsStarted(meta.0, e.avcc, e.asc);
  }

  /** A frame on a connection that starts with a keyframe behind its configuration, or shows it first. */
  lemma MediaStarted(m: Mux, p: MediaPacket)
    requires Started(m) && m.header && Fits(p)
    requires p.kind == Video && NoVideo(Tags(m)) ==> p.isKey && m.videoSeq
    ensures var (m', r) := WriteMedia(m, p);
            && Started(m') && m'.videoSeq == m.videoSeq
            && (p.kind == Audio && NoVideo(Tags(m)) ==> NoVideo(Tags(m')))
            && (!NoVideo(Tags(m)) ==> !NoVideo(Tags(m')))
            && (r == Done && p.kind == Video ==> !NoVideo(Tags(m')))
  {
    hide GoodStart, HasConfig, TagsOf, TagBytes, NoVideo, Put, MediaTag, Fits;
    var anchored := m.(origin := Some(OriginFor(m, p.dts)));
    if TrackTime(m, p).Some? {
      var ts := TrackTime(m, p).value;
      var t := MediaTag(m, p, ts);
      MediaTagShape(m, p, ts);
      KeyOfTag(m, p, ts);
      var marked := SetLast(anchored, p.kind, ts);
      TagStarted(marked, t);
    }
  }

  lemma KeyOfTag(m: Mux, p: MediaPacket, ts: int)
    ensures IsMedia(MediaTag(m, p, ts), Video) <==> p.kind == Video
    ensures p.kind == Video ==> IsKeyTag(MediaTag(m, p, ts)) == p.isKey
  {
    hide H264.Nals, H264.Prefixed;
  }

  /** A sequence header that the packet brings along keeps the start, and a keyframe goes on behind one. */
  lemma SniffStarted(h: Mux, p: MediaPacket)
    requires Started(h) && h.header && Fits(p)
    ensures var (s, r) := SniffConfig(h, p);
            && Started(s) && (NoVideo(Tags(s)) <==> NoVideo(Tags(h)))
            && (h.videoSeq ==> s.videoSeq) && (r == Done && IsKeyframe(p) ==> s.videoSeq)
  {
    hide Started, NoVideo, TagsOf, WriteAudioSequence, WriteVideoSequence, FindSets, AnnexBToAvcc, AdtsToAsc,
         H264.Prefixed;
    if !h.videoSeq && IsKeyframe(p) && AnnexBToAvcc(p.data).Some? {
      VideoSequenceStarted(h, AnnexBToAvcc(p.data).value);
    } else if !h.audioSeq && p.kind == Audio && AdtsToAsc(p.data).Some? {
      FitsAsc(p);
      AudioSequenceStarted(h, AdtsToAsc(p.data).value);
    }
  }

  lemma FitsAsc(p: MediaPacket)
    ensures FitsConfig(AdtsToAsc(p.data))
  {
  }

  lemma PacketStarted(m: Mux, p: MediaPacket)
    requires Started(m) && Fits(p)
    requires p.kind == Video && NoVideo(Tags(m)) ==> p.isKey
    ensures var (m', r) := WritePacket(m, p);
            && Started(m') && (m.videoSeq ==> m'.videoSeq)
            && (p.kind == Audio && NoVideo(Tags(m)) ==> NoVideo(Tags(m')))
            && (!NoVideo(Tags(m)) ==> !NoVideo(Tags(m')))
            && (r == Done && p.kind == Video ==> !NoVideo(Tags(m')))
  {
    hide Started, NoVideo, TagsOf, WriteMedia, SniffConfig, Fits;
    HeaderStarted(m);
    var h := EnsureHeader(m);
    if h.header {
      SniffStarted(h, p);
      var s := SniffConfig(h, p);
      if s.1 == Done {
        SniffKeepsHeader(h, p);
        MediaStarted(s.0, p);
      }
    }
  }

  lemma WriteOrRebaseStarted(m: Mux, p: MediaPacket)
    requires Started(m) && Fits(p)
    requires p.kind == Video && NoVideo(Tags(m)) ==> p.isKey
    ensures var (m', r) := WriteOrRebase(m, p);
            && Started(m') && (p.kind == Audio && NoVideo(Tags(m)) ==> NoVideo(Tags(m')))
            && (!NoVideo(Tags(m)) ==> !NoVideo(Tags(m')))
            && (r == Done && p.kind == Video ==> !NoVideo(Tags(m')))
  {
    hide WritePacket, NoVideo, TagsOf, GoodStart, HasConfig, Fits;
    PacketStarted(m, p);
    var first := WritePacket(m, p);
    if first.1 == Ordering {
      PacketStarted(Rebase(first.0, p.kind, p.dts), p);
    }
  }

  /** If a batch shows no video frame to the peer, its first video frame is still to be sent. */
  lemma {:induction false} SendStarted(m: Mux, batch: seq<MediaPacket>)
    requires Started(m) && AllFit(batch)
    requires NoVideo(Tags(m)) ==> FirstVideo(batch) == None || StartsOnKey(batch)
    ensures var r := Send(m, batch);
            && Started(r.muxer)
            && (!NoVideo(Tags(m)) ==> !NoVideo(Tags(r.muxer)))
            && (NoVideo(Tags(r.muxer)) ==> FirstVideo(batch[r.sent..]) == FirstVideo(batch))
    decreases |batch|
  {
    hide WriteOrRebase, Started, NoVideo, TagsOf, Fits;
    if batch != [] {
      assert Fits(batch[0]);
      WriteOrRebaseStarted(m, batch[0]);
      var (m', r) := WriteOrRebase(m, batch[0]);
      if r == Done {
        SendStarted(m', batch[1..]);
        var rest := Send(m', batch[1..]);
        assert batch[rest.sent + 1..] == batch[1..][rest.sent..];
      } else {
        assert batch[0..] == batch;
      }
    }
  }

  /** The strict drain of a finish, which writes no preamble: keyframes bring their own configuration or fail. */
  lemma {:induction false} StrictStarted(m: Mux, batch: seq<MediaPacket>)
    requires Started(m) && AllFit(batch)
    requires NoVideo(Tags(m)) ==> FirstVideo(batch) == None || StartsOnKey(batch)
    ensures var m' := SendStrict(m, batch).0; Started(m') && (!NoVideo(Tags(m)) ==> !NoVideo(Tags(m')))
    decreases |batch|
  {
    hide WritePacket, Started, NoVideo, TagsOf, Fits;
    if batch != [] {
      assert Fits(batch[0]);
      PacketStarted(m, batch[0]);
      if WritePacket(m, batch[0]).1 == Done {
        StrictStarted(WritePacket(m, batch[0]).0, batch[1..]);
      }
    }
  }

  // ---------------------------------------------------------------------------------
  // The engine
  // ---------------------------------------------------------------------------------

  /** Until a connection shows a video frame, the engine is set to begin it on a keyframe. */
  ghost predicate Resuming(e: Engine) {
    && VideoOrdered(e.buffer.queue) && e.avcc.Some?
    && match e.muxer
       case None => Ready(e.buffer.queue, e.awaitingKeyframe)
       case Some(m) => Started(m) && (NoVideo(Tags(m)) ==> Ready(e.buffer.queue, e.awaitingKeyframe))
  }

  lemma OrderedSuffix(q: seq<MediaPacket>, n: nat)
    requires VideoOrdered(q) && n <= |q|
    ensures VideoOrdered(q[n..])
  {
  }

  lemma SendBatchStarted(e: Engine, m: Mux, flushes: bool)
    requires Resuming(e) && Fitting(e) && e.muxer == Some(m)
    ensures var r := SendBatch(e, m, flushes);
            && Started(r.muxer)
            && (NoVideo(Tags(r.muxer)) ==> Ready(Batch(e)[r.sent..], Drained(e).awaitingKeyframe))
  {
    hide Preamble, Send, Batch, Started, NoVideo, TagsOf, FitsConfig, VideoOrdered;
    PreambleStarted(e, m);
    BatchFits(e);
    var pre := Preamble(e, m);
    if NoVideo(Tags(m)) {
      BatchStarts(e);
    }
    if pre.1 == Done {
      SendStarted(pre.0, Batch(e));
    } else {
      assert Batch(e)[0..] == Batch(e);
    }
  }

  lemma TickResumes(w: World, healthy: bool, flushes: bool)
    requires Resuming(w.engine) && Fitting(w.engine)
    ensures Resuming(Next(w, TickEv(healthy, flushes)).engine)
  {
    hide SendBatch, Batch, Started, NoVideo, TagsOf, FitsConfig, VideoOrdered, Kept, Orphans, HasKeyframe, Fits;
    var e := w.engine;
    if e.muxer.Some? && healthy {
      var r := SendBatch(e, e.muxer.value, flushes);
      SendBatchStarted(e, e.muxer.value, flushes);
      TickOrdered(w, healthy, flushes);
      assert Batch(e)[r.sent..] + [] == Batch(e)[r.sent..];
      assert Batch(e)[|Batch(e)|..] == [];
    }
  }

  /** What a tick leaves in the buffer keeps the order of the video track. */
  lemma TickOrdered(w: World, healthy: bool, flushes: bool)
    requires VideoOrdered(w.engine.buffer.queue)
    ensures VideoOrdered(Next(w, TickEv(healthy, flushes)).engine.buffer.queue)
  {
    hide SendBatch, Batch, VideoOrdered, Kept, Orphans, HasKeyframe;
    var e := w.engine;
    if e.muxer.Some? && healthy {
      var r := SendBatch(e, e.muxer.value, flushes);
      BatchOrdered(e);
      OrderedSuffix(Batch(e), r.sent);
      assert Batch(e)[r.sent..] + [] == Batch(e)[r.sent..];
      assert Batch(e)[|Batch(e)|..] == [];
    }
  }

  /** No push evicts a keyframe. */
  ghost predicate KeepsKeyframe(b: Buffer, ps: seq<MediaPacket>) {
    forall p :: p in PushDrops(b, ps) ==> !IsKeyframe(p)
  }

  /** A finish that fails loses its batch: that is safe behind video, or when no keyframe is there to be lost. */
  ghost predicate FinishSafe(e: Engine, flushes: bool) {
    || KeepsBatch(e, flushes) || !NoVideo(Current(e)) || (e.awaitingKeyframe && !HasKeyframe(e.buffer.queue))
  }

  /** What pushes must not do while the next video frame is the first of its connection. */
  ghost predicate PushSafe(e: Engine, ps: seq<MediaPacket>) {
    && VideoOrdered(e.buffer.queue + ps)
    && (NoVideo(Current(e)) && !e.awaitingKeyframe ==> KeepsKeyframe(e.buffer, ps))
  }

  /**
    The events of an orderly run that push video in decode order and, while the next video frame is the
    first of its connection and no keyframe is awaited anyway, neither evict a keyframe nor lose one to
    a finish.
   */
  ghost predicate Gentle(w: World, ev: Event) {
    && Orderly(w, ev)
    && (ev.PushEv? ==> PushSafe(w.engine, ev.ps)) && (ev.FinishEv? ==> FinishSafe(w.engine, ev.flushes))
  }

  lemma FirstVideoAppend(q: seq<MediaPacket>, p: MediaPacket)
    ensures FirstVideo(q).Some? ==> FirstVideo(q + [p]) == FirstVideo(q)
  {
    if q != [] {
      assert (q + [p])[1..] == q[1..] + [p];
    }
  }

  lemma PushReady(b: Buffer, p: MediaPacket, awaiting: bool)
    requires Ready(b.queue, awaiting) && (!awaiting ==> forall x :: x in Evicted(b) ==> !IsKeyframe(x))
    ensures Ready(Push(b, p).queue, awaiting)
  {
    if !awaiting {
      if Evicted(b) != [] {
        assert b.queue[0] in Evicted(b);
        FirstVideoAppend(b.queue[1..], p);
      } else {
        FirstVideoAppend(b.queue, p);
      }
    }
  }

  lemma {:induction false} PushSeqReady(b: Buffer, ps: seq<MediaPacket>, awaiting: bool)
    requires Ready(b.queue, awaiting) && (!awaiting ==> KeepsKeyframe(b, ps))
    ensures Ready(PushSeq(b, ps).queue, awaiting)
    decreases |ps|
  {
    hide Push, Ready, Evicted;
    if ps != [] {
      assert forall x :: x in Evicted(b) ==> x in PushDrops(b, ps);
      PushReady(b, ps[0], awaiting);
      assert forall x :: x in PushDrops(Push(b, ps[0]), ps[1..]) ==> x in PushDrops(b, ps);
      PushSeqReady(Push(b, ps[0]), ps[1..], awaiting);
    }
  }

  lemma {:induction false} PushSeqOrdered(b: Buffer, ps: seq<MediaPacket>)
    requires VideoOrdered(b.queue + ps)
    ensures VideoOrdered(PushSeq(b, ps).queue)
    decreases |ps|
  {
    if ps == [] {
      assert b.queue + ps == b.queue;
    } else {
      var b1 := Push(b, ps[0]);
      var all := b.queue + ps;
      assert b1.queue + ps[1..] == all || b1.queue + ps[1..] == all[1..];
      OrderedSuffix(all, 1);
      PushSeqOrdered(b1, ps[1..]);
    }
  }

  lemma ResyncReady(b: Buffer, awaiting: bool)
    requires Ready(b.queue, awaiting)
    ensures Ready(Resync(b).queue, awaiting)
  {
    var n := BeforeLastKey(b.queue);
    if n > 0 {
      assert b.queue[n..][0] == b.queue[n];
    } else {
      assert b.queue[0..] == b.queue;
    }
  }

  lemma PushResumes(w: World, ps: seq<MediaPacket>)
    requires Resuming(w.engine) && PushSafe(w.engine, ps)
    ensures Resuming(Next(w, PushEv(ps)).engine)
  {
    hide PushSeq, PushDrops, Started, NoVideo, TagsOf, VideoOrdered, BeforeLastKey, Fits, Ready, KeepsKeyframe;
    var e := w.engine;
    PushSeqOrdered(e.buffer, ps);
    var b := PushSeq(e.buffer, ps);
    OrderedSuffix(b.queue, BeforeLastKey(b.queue));
    if NoVideo(Current(e)) {
      NoBytesNoTags();
      NoTagsNoVideo();
    }
    if Ready(e.buffer.queue, e.awaitingKeyframe) && (!e.awaitingKeyframe ==> KeepsKeyframe(e.buffer, ps)) {
      PushSeqReady(e.buffer, ps, e.awaitingKeyframe);
      ResyncReady(b, e.awaitingKeyframe);
    }
    NoTagsNoVideo();
  }

  lemma NoTagsNoVideo()
    ensures NoVideo([]) && GoodStart([])
  {
  }

  lemma CutResumes(w: World, ev: Event)
    requires (ev == ResyncEv && Resuming(w.engine)) || (ev == DetachEv && VideoOrdered(w.engine.buffer.queue))
    requires ev == DetachEv ==> Next(w, ev).engine.avcc.Some?
    ensures Resuming(Next(w, ev).engine)
  {
    hide Started, NoVideo, TagsOf, VideoOrdered, BeforeLastKey;
    var b := w.engine.buffer;
    OrderedSuffix(b.queue, BeforeLastKey(b.queue));
    if Ready(b.queue, w.engine.awaitingKeyframe) {
      ResyncReady(b, w.engine.awaitingKeyframe);
    }
  }

  lemma AttachResumes(w: World, room: nat)
    requires Resuming(w.engine) && w.engine.muxer.None?
    ensures Resuming(Next(w, AttachEv(room)).engine)
  {
    hide Ready, VideoOrdered;
    NoBytesNoTags();
    NoTagsNoVideo();
  }

  lemma ConfigureResumes(w: World, avcc: Option<bytes>, asc: Option<bytes>)
    requires Resuming(w.engine) && FitsConfig(avcc) && FitsConfig(asc)
    ensures Resuming(Next(w, ConfigureEv(avcc, asc)).engine)
  {
    hide InitCodecs, Started, NoVideo, TagsOf, VideoOrdered, Ready;
    if w.engine.muxer.Some? {
      CodecsStarted(w.engine.muxer.value, avcc, asc);
    }
  }

  /** The drain of a finish starts its connection well, whether the finish succeeds or not. */
  lemma FinishStarts(e: Engine)
    requires Resuming(e) && Fitting(e) && e.muxer.Some?
    ensures Started(FinishMux(e)) && (!NoVideo(Current(e)) ==> !NoVideo(Tags(FinishMux(e))))
  {
    hide Batch, Started, NoVideo, TagsOf, FitsConfig, VideoOrdered, SendStrict, Ready, Drained;
    BatchFits(e);
    if NoVideo(Current(e)) {
      BatchStarts(e);
    }
    StrictStarted(e.muxer.value, Batch(e));
  }

  /** After a failed finish the next drain begins on a keyframe exactly when one was awaited and none lost. */
  lemma FailedFinishReady(e: Engine, flushes: bool)
    requires e.muxer.Some? && Finish(e, flushes).1 != Done
    ensures var n := Finish(e, flushes).0;
      && n.muxer == Some(FinishMux(e)) && n.buffer.queue == [] && n.avcc == e.avcc
      && (Ready(n.buffer.queue, n.awaitingKeyframe) <==> e.awaitingKeyframe && !HasKeyframe(e.buffer.queue))
  {
    hide SendStrict, Batch, HasKeyframe, Orphans;
  }

  lemma {:induction false} KeptKeyframes(q: seq<MediaPacket>, awaiting: bool)
    ensures Kept(q, awaiting) == [] ==> !HasKeyframe(q) && (q == [] || awaiting)
  {
    if q != [] {
      HasKeyframeHead(q);
      KeptKeyframes(q[1..], awaiting);
    }
  }

  /** A finish with nothing to send cannot lose a keyframe. */
  lemma EmptyBatch(e: Engine)
    requires Batch(e) == [] && Ready(e.buffer.queue, e.awaitingKeyframe)
    ensures e.awaitingKeyframe && !HasKeyframe(e.buffer.queue)
  {
    hide SortByDts, HasKeyframe, Kept;
    SortElements(Kept(e.buffer.queue, e.awaitingKeyframe));
    KeptKeyframes(e.buffer.queue, e.awaitingKeyframe);
  }

  lemma FinishResumes(w: World, flushes: bool)
    requires Resuming(w.engine) && Fitting(w.engine) && FinishSafe(w.engine, flushes)
    ensures var n := Next(w, FinishEv(flushes)); n.ended == w.ended ==> Resuming(n.engine)
  {
    hide Finish, FinishMux, Batch, KeepsBatch, Started, NoVideo, TagsOf, FitsConfig, HasKeyframe, Ready, TickDrops,
         Fits;
    var e := w.engine;
    if e.muxer.Some? && Finish(e, flushes).1 != Done {
      FinishStarts(e);
      FailedFinishReady(e, flushes);
      FinishSucceeds(e, flushes);
      if NoVideo(Current(e)) && KeepsBatch(e, flushes) {
        EmptyBatch(e);
      }
    }
  }

  lemma StepResumes(w: World, ev: Event)
    requires Resuming(w.engine) && Fitting(w.engine) && Gentle(w, ev)
    ensures Next(w, ev).ended == w.ended ==> Resuming(Next(w, ev).engine)
  {
    hide Next, Fitting, PushSafe, FinishSafe, AllFit, FitsConfig, Started, NoVideo, VideoOrdered, Ready, TagsOf;
    match ev
    case PushEv(ps) => PushResumes(w, ps);
    case TickEv(healthy, flushes) => TickResumes(w, healthy, flushes);
    case AttachEv(room) => AttachResumes(w, room);
    case DetachEv =>
      DetachKnows(w);
      CutResumes(w, ev);
    case ConfigureEv(avcc, asc) => ConfigureResumes(w, avcc, asc);
    case ResyncEv => CutResumes(w, ev);
    case FinishEv(flushes) => FinishResumes(w, flushes);
  }

  lemma DetachKnows(w: World)
    requires w.engine.avcc.Some?
    ensures Next(w, DetachEv).engine.avcc.Some?
  {
    hide BeforeLastKey, TagsOf;
  }

  /** Gentle events, up to the one that finishes the stream. */
  ghost predicate GentleRun(w: World, events: seq<Event>)
    decreases |events|
  {
    events != [] ==>
      && Gentle(w, events[0])
      && (Next(w, events[0]).ended == w.ended ==> GentleRun(Next(w, events[0]), events[1..]))
  }

  lemma NextEnds(w: World, ev: Event)
    ensures w.ended <= Next(w, ev).ended
  {
    hide PushAll, PushDrops, PolicyDrops, Tick, TickSent, TickDrops, Attach, Detach, CutDrops, ConfigureCodecs,
         Resync, TagsOf, Finish, Batch, FinishMux;
  }

  lemma {:induction false} RunEnds(w: World, events: seq<Event>)
    ensures w.ended <= Run(w, events).ended
    decreases |events|
  {
    hide Next;
    if events != [] {
      NextEnds(w, events[0]);
      RunEnds(Next(w, events[0]), events[1..]);
    }
  }

  lemma {:induction false} RunResumes(w: World, events: seq<Event>)
    requires TimelineSound(w) && Resuming(w.engine) && Fitting(w.engine) && GentleRun(w, events)
    ensures var n := Run(w, events); n.ended == w.ended ==> Resuming(n.engine) && Fitting(n.engine)
    decreases |events|
  {
    hide Next, Resuming, Fitting, TimelineSound, Gentle;
    if events != [] {
      var n := Next(w, events[0]);
      GentleIsOrderly(w, events[0]);
      StepResumes(w, events[0]);
      StepSound(w, events[0]);
      NextEnds(w, events[0]);
      RunEnds(n, events[1..]);
      if n.ended == w.ended {
        RunResumes(n, events[1..]);
      }
    }
  }

  lemma GentleIsOrderly(w: World, ev: Event)
    requires Gentle(w, ev)
    ensures Orderly(w, ev)
  {
  }

  /**
    From the loss of a connection on, whatever happens next (pushes while disconnected, attaches,
    failing ticks, failing finishes, further losses) until the stream is finished, every connection
    shows its peer a video configuration and then a keyframe before any other video frame. So it does
    with the drain of a finish on top, the one that ends the stream included.
   */
  lemma ResumesOnKeyframe(w: World, events: seq<Event>)
    requires TimelineSound(w) && Fitting(w.engine) && VideoOrdered(w.engine.buffer.queue)
    requires Next(w, DetachEv).engine.avcc.Some? && GentleRun(Next(w, DetachEv), events)
    ensures var n := Run(Next(w, DetachEv), events);
      n.ended == w.ended ==>
        && GoodStart(Current(n.engine))
        && (n.engine.muxer.Some? ==> GoodStart(Tags(FinishMux(n.engine))))
  {
    hide Next, Run, TimelineSound, Fitting, GentleRun, GoodStart, TagsOf, FinishMux, Ready, VideoOrdered;
    CutResumes(w, DetachEv);
    StepSound(w, DetachEv);
    DetachEnds(w);
    RunResumes(Next(w, DetachEv), events);
    NoTagsNoVideo();
    var n := Run(Next(w, DetachEv), events);
    if n.ended == w.ended && n.engine.muxer.Some? {
      FinishStarts(n.engine);
    }
  }

  lemma DetachEnds(w: World)
    ensures Next(w, DetachEv).ended == w.ended
  {
  }
}
