/**
  What peers saw of the packets: over every run of the engine, the frames on the wire, connection
  after connection, are those of the packets the engine counts as muxed, and at most one more on each
  connection that failed, which is back at the front of the buffer. A failed finish adds the frames
  it had written before it forgot its batch.
 */
module EngineWire {
  import opened Bytes
  import opened Media
  import opened FlvTags
  import opened Mux
  import opened MuxRoom
  import opened Timeline
  import opened TagLog
  import opened Backpressure
  import opened Engines
  import opened EngineRoom
  import opened EngineRuns
  import opened EngineTimeline

  /** What the engine made of a packet whose frame a peer saw. */
  datatype Fate = Counted | Echoed | Forgotten

  /** A packet whose frame was seen, and its times there. */
  datatype Told = Told(packet: MediaPacket, fate: Fate, at: Stamp)

  // ---------------------------------------------------------------------------------
  // Batches
  // ---------------------------------------------------------------------------------

  function ToldBySend(m: Mux, batch: seq<MediaPacket>): seq<Told>
    decreases |batch|
  {
    if batch == [] then []
    else
      var (n, r) := WriteOrRebase(m, batch[0]);
      if r == Done then [Told(batch[0], Counted, StampOf(m, batch[0]))] + ToldBySend(n, batch[1..])
      else if FrameShown(m, batch[0]) != [] then [Told(batch[0], Echoed, StampOf(m, batch[0]))]
      else []
  }

  function SendFrames(m: Mux, batch: seq<MediaPacket>): seq<FlvTag>
    decreases |batch|
  {
    if batch == [] then []
    else
      var (n, r) := WriteOrRebase(m, batch[0]);
      FrameShown(m, batch[0]) + if r == Done then SendFrames(n, batch[1..]) else []
  }

  function ToldByStrict(m: Mux, batch: seq<MediaPacket>, fate: Fate): seq<Told>
    decreases |batch|
  {
    if batch == [] then []
    else
      var (n, r) := WritePacket(m, batch[0]);
      if r == Done then [Told(batch[0], fate, StampOf(m, batch[0]))] + ToldByStrict(n, batch[1..], fate)
      else if PacketShown(m, batch[0]) != [] then [Told(batch[0], Forgotten, StampOf(m, batch[0]))]
      else []
  }

  function StrictFrames(m: Mux, batch: seq<MediaPacket>): seq<FlvTag>
    decreases |batch|
  {
    if batch == [] then []
    else
      var (n, r) := WritePacket(m, batch[0]);
      PacketShown(m, batch[0]) + if r == Done then StrictFrames(n, batch[1..]) else []
  }

  /** Frame by frame the tags carry the packets. */
  ghost predicate Match(tags: seq<FlvTag>, told: seq<Told>) {
    |tags| == |told| && forall i :: 0 <= i < |tags| ==> Shows(tags[i], told[i])
  }

  predicate Shows(t: FlvTag, told: Told) {
    Carries(t, told.packet) && Fits(told.packet) && StampedAt(t, told.packet, told.at)
  }

  lemma MatchAppend(a: seq<FlvTag>, b: seq<FlvTag>, s: seq<Told>, t: seq<Told>)
    requires Match(a, s) && Match(b, t)
    ensures Match(a + b, s + t)
  {
    hide Shows;
  }

  predicate ConfigsFit(m: Mux) {
    FitsConfig(m.avcc) && FitsConfig(m.asc)
  }

  lemma WriteOrRebaseKeeps(m: Mux, p: MediaPacket)
    requires ConfigsFit(m) && Fits(p)
    ensures ConfigsFit(WriteOrRebase(m, p).0)
  {
    hide WritePacket, Fits;
    WritePacketFits(m, p);
    WritePacketFits(Rebase(WritePacket(m, p).0, p.kind, p.dts), p);
  }

  lemma {:induction false} SendWire(m: Mux, batch: seq<MediaPacket>)
    requires Intact(m) && ConfigsFit(m) && AllFit(batch)
    ensures var n := Send(m, batch).muxer;
      Grew(m, n, SendFrames(m, batch), None) && ConfigsFit(n) && Match(SendFrames(m, batch), ToldBySend(m, batch))
    decreases |batch|
  {
    hide WriteOrRebase, Fits, Grew, Intact, FrameShown, ConfigsFit, Carries, Known, BytesFor, LeadBytes, FrameSize;
    if batch == [] {
      Unchanged(m, None);
    } else {
      var p := batch[0];
      var (n, r) := WriteOrRebase(m, p);
      assert Fits(p);
      WriteOrRebaseGrew(m, p);
      WriteOrRebaseKeeps(m, p);
      FrameShownIs(m, p);
      if r == Done {
        DoneShows(m, p);
        GrewIntact(m, n, FrameShown(m, p), None);
        SendWire(n, batch[1..]);
        var shown, rest := FrameShown(m, p), SendFrames(n, batch[1..]);
        GrewTwice(m, n, Send(n, batch[1..]).muxer, shown, rest, SendFrames(m, batch), None);
        MatchAppend(shown, rest, [Told(p, Counted, StampOf(m, p))], ToldBySend(n, batch[1..]));
      } else {
        assert FrameShown(m, p) + [] == FrameShown(m, p);
      }
    }
  }

  lemma DoneShows(m: Mux, p: MediaPacket)
    requires Fits(p)
    ensures WriteOrRebase(m, p).1 == Done ==> FrameShown(m, p) != []
    ensures WritePacket(m, p).1 == Done ==> PacketShown(m, p) != []
  {
    hide WriteOrRebase, WritePacket, FrameShown, PacketShown, Fits, FrameSize, Known;
    FrameShownIs(m, p);
    PacketShownIs(m, p);
    WriteOrRebaseSucceeds(m, p);
    WriteSucceeds(m, p);
  }

  lemma {:induction false} StrictWire(m: Mux, batch: seq<MediaPacket>, fate: Fate)
    requires Intact(m) && ConfigsFit(m) && AllFit(batch)
    ensures var n := SendStrict(m, batch).0;
      && Grew(m, n, StrictFrames(m, batch), None) && ConfigsFit(n)
      && Match(StrictFrames(m, batch), ToldByStrict(m, batch, fate))
    decreases |batch|
  {
    hide WritePacket, Fits, Grew, Intact, PacketShown, ConfigsFit, Carries, Known, BytesFor, LeadBytes, FrameSize;
    if batch == [] {
      Unchanged(m, None);
    } else {
      var p := batch[0];
      var (n, r) := WritePacket(m, p);
      assert Fits(p);
      PacketGrew(m, p);
      PacketKeeps(m, p);
      PacketShownIs(m, p);
      if r == Done {
        DoneShows(m, p);
        GrewIntact(m, n, PacketShown(m, p), None);
        StrictWire(n, batch[1..], fate);
        var shown, rest := PacketShown(m, p), StrictFrames(n, batch[1..]);
        GrewTwice(m, n, SendStrict(n, batch[1..]).0, shown, rest, StrictFrames(m, batch), None);
        MatchAppend(shown, rest, [Told(p, fate, StampOf(m, p))], ToldByStrict(n, batch[1..], fate));
      } else {
        assert PacketShown(m, p) + [] == PacketShown(m, p);
      }
    }
  }

  lemma PacketKeeps(m: Mux, p: MediaPacket)
    requires ConfigsFit(m) && Fits(p)
    ensures ConfigsFit(WritePacket(m, p).0)
  {
    hide WritePacket, Fits;
    WritePacketFits(m, p);
  }

  // ---------------------------------------------------------------------------------
  // The packets behind the frames
  // ---------------------------------------------------------------------------------

  function CountedOne(t: Told): seq<MediaPacket> {
    if t.fate == Counted then [t.packet] else []
  }

  function CountedOf(told: seq<Told>): seq<MediaPacket> {
    if told == [] then [] else CountedOne(told[0]) + CountedOf(told[1..])
  }

  lemma {:induction false} CountedAppend(a: seq<Told>, b: seq<Told>)
    ensures CountedOf(a + b) == CountedOf(a) + CountedOf(b)
  {
    hide CountedOne;
    if a == [] {
      assert a + b == b;
    } else {
      assert (a + b)[1..] == a[1..] + b;
      CountedAppend(a[1..], b);
    }
  }

  /** Only the last frame of a connection can be one the engine does not count, short of a failed finish. */
  ghost predicate OneEcho(told: seq<Told>) {
    forall i :: 0 <= i < |told| - 1 ==> told[i].fate != Echoed
  }

  predicate Echoing(told: seq<Told>) {
    told != [] && told[|told| - 1].fate == Echoed
  }

  /** What a send told: it counts exactly what it reports as sent, and an echo is of the first one it did not send. */
  ghost predicate TellsSent(t: seq<Told>, batch: seq<MediaPacket>, r: SendResult)
    requires r.sent <= |batch|
  {
    && CountedOf(t) == batch[..r.sent] && OneEcho(t) && |t| <= r.sent + 1
    && (Echoing(t) ==> r.sent < |batch| && t[|t| - 1].packet == batch[r.sent] && r.muxer.sink.dead)
    && (forall i :: 0 <= i < |t| ==> t[i].fate != Forgotten)
  }

  lemma OneMoreSent(first: Told, t: seq<Told>, batch: seq<MediaPacket>, r: SendResult)
    requires batch != [] && first.packet == batch[0] && first.fate == Counted
    requires r.sent <= |batch[1..]| && TellsSent(t, batch[1..], r)
    ensures TellsSent([first] + t, batch, r.(sent := r.sent + 1))
  {
    hide CountedOf;
    CountedAppend([first], t);
    OneTold(first);
    assert batch[..r.sent + 1] == [batch[0]] + batch[1..][..r.sent];
  }

  lemma OneTold(t: Told)
    ensures CountedOf([t]) == if t.fate == Counted then [t.packet] else []
  {
    assert [t][1..] == [];
  }

  lemma {:induction false} SendCounts(m: Mux, batch: seq<MediaPacket>)
    requires AllFit(batch)
    ensures TellsSent(ToldBySend(m, batch), batch, Send(m, batch))
    ensures m.sink.dead ==> ToldBySend(m, batch) == []
    decreases |batch|
  {
    hide WriteOrRebase, FrameShown, Fits;
    if batch != [] {
      var p := batch[0];
      assert Fits(p);
      var (n, r) := WriteOrRebase(m, p);
      FailedWrite(m, p);
      if r == Done {
        hide TellsSent;
        SendCounts(n, batch[1..]);
        OneMoreSent(Told(p, Counted, StampOf(m, p)), ToldBySend(n, batch[1..]), batch, Send(n, batch[1..]));
      } else {
        OneTold(Told(p, Echoed, StampOf(m, p)));
      }
    }
  }

  lemma FailedWrite(m: Mux, p: MediaPacket)
    requires Fits(p)
    ensures WriteOrRebase(m, p).1 != Done && FrameShown(m, p) != [] ==> WriteOrRebase(m, p).0.sink.dead
    ensures m.sink.dead ==> WriteOrRebase(m, p).1 != Done && FrameShown(m, p) == []
    ensures WritePacket(m, p).1 != Done && PacketShown(m, p) != [] ==> WritePacket(m, p).0.sink.dead
    ensures m.sink.dead ==> WritePacket(m, p).1 != Done && PacketShown(m, p) == []
  {
    hide WriteOrRebase, WritePacket, FrameShown, PacketShown, Fits, FrameSize, Known, LeadBytes, TrackTime;
    FrameShownIs(m, p);
    PacketShownIs(m, p);
    WriteOrRebaseSucceeds(m, p);
    WriteSucceeds(m, p);
    BytesSplit(m, p);
    ShortOfRoom(m, p);
  }

  /** What each failure says: an I/O failure kills the sink, a configuration failure means none was known. */
  lemma FailuresOf(m: Mux, p: MediaPacket)
    ensures WritePacket(m, p).1 == Io ==> WritePacket(m, p).0.sink.dead
    ensures WritePacket(m, p).1 == Config ==> !Known(m, p)
  {
    hide TagBytes, AnnexBToAvcc, AdtsToAsc, MediaTag, FILE_HEADER;
  }

  /** A write that fails for want of room fails the sink. */
  lemma ShortOfRoom(m: Mux, p: MediaPacket)
    ensures Known(m, p) && TrackTime(m, p).Some? && BytesFor(m, p) > Room(m.sink) ==> WritePacket(m, p).0.sink.dead
    ensures Known(m, p) && BytesFor(m, p) > Room(m.sink) ==> WriteOrRebase(m, p).0.sink.dead
  {
    hide WritePacket, TrackTime, BytesFor, Known, Room, LeadBytes, FrameSize;
    FailuresOf(m, p);
    WriteSucceeds(m, p);
    var first := WritePacket(m, p);
    if first.1 == Ordering {
      var r := Rebase(first.0, p.kind, p.dts);
      FailuresOf(r, p);
      WriteSucceeds(r, p);
      RebasedTime(first.0, p);
      OrderingLeaves(m, p);
      LeadRoom(m, p);
      BeforeFrameReady(m, p);
      RebasedNeeds(BeforeFrame(m, p), r, p);
      WriteOrRebaseSucceeds(m, p);
    }
  }

  // ---------------------------------------------------------------------------------
  // Runs
  // ---------------------------------------------------------------------------------

  function Concat<T>(ss: seq<seq<T>>): seq<T> {
    if ss == [] then [] else Concat(ss[..|ss| - 1]) + ss[|ss| - 1]
  }

  lemma ConcatSnoc<T>(ss: seq<seq<T>>, s: seq<T>)
    ensures Concat(ss + [s]) == Concat(ss) + s
  {
    assert (ss + [s])[..|ss|] == ss;
  }

  /** The tags of all connections that are gone, of finished streams and of this one. */
  function GoneTags(w: World): seq<FlvTag> {
    Concat(w.ended) + w.past
  }

  /** Every tag a peer ever saw. */
  function AllTags(w: World): seq<FlvTag> {
    GoneTags(w) + Current(w.engine)
  }

  /** A run beside which it is written down whose frames each connection showed: those that are gone, and this one. */
  datatype Trace = Trace(w: World, lines: seq<seq<Told>>, here: seq<Told>)

  function AllTold(t: Trace): seq<Told> {
    Concat(t.lines) + t.here
  }

  function ToldByTick(e: Engine, healthy: bool): seq<Told> {
    if e.muxer.None? || !healthy || Preamble(e, e.muxer.value).1 != Done then []
    else ToldBySend(Preamble(e, e.muxer.value).0, Batch(e))
  }

  function FinishFate(e: Engine, flushes: bool): Fate {
    if Finish(e, flushes).1 == Done then Counted else Forgotten
  }

  function ToldByFinish(e: Engine, flushes: bool): seq<Told>
    requires e.muxer.Some?
  {
    ToldByStrict(e.muxer.value, Batch(e), FinishFate(e, flushes))
  }

  /** A connection that goes is written down. */
  function Hang(t: Trace): Trace {
    if t.w.engine.muxer.None? then t else t.(lines := t.lines + [t.here], here := [])
  }

  function Record(t: Trace, ev: Event): Trace {
    var e := t.w.engine;
    match ev
    case TickEv(healthy, _) => t.(here := t.here + ToldByTick(e, healthy))
    case AttachEv(_) => Hang(t)
    case DetachEv => Hang(t)
    case FinishEv(flushes) =>
      if e.muxer.None? then t
      else
        var u := t.(here := t.here + ToldByFinish(e, flushes));
        if Finish(e, flushes).1 == Done then Hang(u) else u
    case _ => t
  }

  function Follow(t: Trace, ev: Event): Trace {
    Record(t, ev).(w := Next(t.w, ev))
  }

  function FollowAll(t: Trace, events: seq<Event>): Trace
    decreases |events|
  {
    if events == [] then t else FollowAll(Follow(t, events[0]), events[1..])
  }

  /** Packets and configurations that the format can carry. */
  ghost predicate FitEvent(ev: Event) {
    match ev
    case PushEv(ps) => AllFit(ps)
    case ConfigureEv(avcc, asc) => FitsConfig(avcc) && FitsConfig(asc)
    case _ => true
  }

  ghost predicate AllFitEvents(events: seq<Event>) {
    forall i :: 0 <= i < |events| ==> FitEvent(events[i])
  }

  ghost predicate MuxOk(e: Engine) {
    match e.muxer
    case Some(m) => Intact(m) && AllWellformed(Current(e), Some(e.meta))
    case None => true
  }

  /** The frames are those of the packets written down, of the connections that are gone and of this one. */
  ghost predicate Matching(t: Trace) {
    Match(FramesOf(GoneTags(t.w)), Concat(t.lines)) && Match(FramesOf(Current(t.w.engine)), t.here)
  }

  lemma MatchingAll(t: Trace)
    requires Matching(t)
    ensures Match(FramesOf(AllTags(t.w)), AllTold(t))
  {
    hide Current, Concat, FramesOf, Shows;
    FramesAppend(GoneTags(t.w), Current(t.w.engine));
    MatchAppend(FramesOf(GoneTags(t.w)), FramesOf(Current(t.w.engine)), Concat(t.lines), t.here);
  }

  lemma GrewTags(m: Mux, n: Mux, frames: seq<FlvTag>, meta: Option<bytes>)
    requires Grew(m, n, frames, meta)
    ensures FramesOf(TagsOf(n.sink.log)) == FramesOf(TagsOf(m.sink.log)) + frames
    ensures AllWellformed(TagsOf(m.sink.log), meta) ==> AllWellformed(TagsOf(n.sink.log), meta)
  {
    hide TagsOf, FramesOf, Wellformed, Intact;
    var more :| Added(m, n, more) && FramesOf(more) == frames && AllWellformed(more, meta);
    FramesAppend(TagsOf(m.sink.log), more);
  }

  /** The attached connection gained frames. */
  lemma HereGrows(t: Trace, w: World, frames: seq<FlvTag>, told: seq<Told>)
    requires Matching(t) && Match(frames, told) && w.ended == t.w.ended && w.past == t.w.past
    requires FramesOf(Current(w.engine)) == FramesOf(Current(t.w.engine)) + frames
    ensures Matching(t.(w := w, here := t.here + told))
  {
    hide TagsOf, FramesOf, Shows, Current, Concat;
    MatchAppend(FramesOf(Current(t.w.engine)), frames, t.here, told);
  }

  lemma PreambleGrew(e: Engine, m: Mux)
    requires Fitting(e) && Intact(m) && ConfigsFit(m)
    ensures Grew(m, Preamble(e, m).0, [], Some(e.meta)) && ConfigsFit(Preamble(e, m).0)
  {
    hide WriteMetadata, InitCodecs, Grew, Intact, FitsConfig;
    Unchanged(m, Some(e.meta));
    MetadataGrew(m, e.meta);
    MetadataKeeps(m, e.meta);
    var meta := if e.metadataWritten then (m, Done) else WriteMetadata(m, e.meta);
    GrewIntact(m, meta.0, [], Some(e.meta));
    CodecsGrew(meta.0, e.avcc, e.asc);
    CodecsKeep(meta.0, e.avcc, e.asc);
    Widen(meta.0, InitCodecs(meta.0, e.avcc, e.asc).0, [], Some(e.meta));
    GrewTwice(m, meta.0, InitCodecs(meta.0, e.avcc, e.asc).0, [], [], [], Some(e.meta));
  }

  lemma MetadataKeeps(m: Mux, meta: bytes)
    ensures WriteMetadata(m, meta).0.avcc == m.avcc && WriteMetadata(m, meta).0.asc == m.asc
  {
    hide Put, TagBytes;
  }

  lemma CodecsKeep(m: Mux, avcc: Option<bytes>, asc: Option<bytes>)
    requires ConfigsFit(m) && FitsConfig(avcc) && FitsConfig(asc)
    ensures ConfigsFit(InitCodecs(m, avcc, asc).0)
  {
    hide WriteVideoSequence, WriteAudioSequence;
    if avcc.Some? {
      WriteVideoSequenceFits(m, avcc.value);
    }
    var v := if avcc.Some? then WriteVideoSequence(m, avcc.value) else (m, Done);
    if asc.Some? {
      WriteAudioSequenceFits(v.0, asc.value);
    }
  }

  function TickFrames(e: Engine, healthy: bool): seq<FlvTag> {
    if e.muxer.None? || !healthy || Preamble(e, e.muxer.value).1 != Done then []
    else SendFrames(Preamble(e, e.muxer.value).0, Batch(e))
  }

  lemma SendBatchGrew(e: Engine, m: Mux, flushes: bool)
    requires Fitting(e) && Intact(m) && ConfigsFit(m) && e.muxer == Some(m)
    ensures var n := SendBatch(e, m, flushes).muxer;
      Grew(m, n, TickFrames(e, true), Some(e.meta)) && ConfigsFit(n) && Match(TickFrames(e, true), ToldByTick(e, true))
  {
    hide Preamble, Send, Batch, Grew, Intact, SendFrames, ToldBySend, ConfigsFit, Match, FitsConfig;
    NothingMatches();
    PreambleGrew(e, m);
    var pre := Preamble(e, m);
    if pre.1 == Done {
      GrewIntact(m, pre.0, [], Some(e.meta));
      BatchFits(e);
      SendWire(pre.0, Batch(e));
      var n := Send(pre.0, Batch(e)).muxer;
      Widen(pre.0, n, SendFrames(pre.0, Batch(e)), Some(e.meta));
      GrewTwice(m, pre.0, n, [], SendFrames(pre.0, Batch(e)), TickFrames(e, true), Some(e.meta));
    }
  }

  ghost predicate Traced(t: Trace) {
    Matching(t) && MuxOk(t.w.engine) && Fitting(t.w.engine) && (t.w.engine.muxer.None? ==> t.here == [])
  }

  lemma TickTraced(t: Trace, healthy: bool, flushes: bool)
    requires Traced(t)
    ensures Traced(Follow(t, TickEv(healthy, flushes)))
  {
    hide SendBatch, Batch, TagsOf, FitsConfig, Kept, Orphans, HasKeyframe, Fits, Grew, Intact, Wellformed, Match,
         ToldByTick, TickFrames, FramesOf, Matching;
    var e, w := t.w.engine, Next(t.w, TickEv(healthy, flushes));
    if e.muxer.Some? && healthy {
      var m := e.muxer.value;
      SendBatchGrew(e, m, flushes);
      var n := SendBatch(e, m, flushes).muxer;
      GrewIntact(m, n, TickFrames(e, true), Some(e.meta));
      GrewTags(m, n, TickFrames(e, true), Some(e.meta));
      BatchFits(e);
      HereGrows(t, w, TickFrames(e, true), ToldByTick(e, true));
    } else {
      QuietTick(e, healthy);
      assert t.here + [] == t.here;
      SameView(t, Follow(t, TickEv(healthy, flushes)));
    }
  }

  lemma SameView(t: Trace, u: Trace)
    requires Matching(t) && GoneTags(u.w) == GoneTags(t.w) && Current(u.w.engine) == Current(t.w.engine)
    requires u.lines == t.lines && u.here == t.here
    ensures Matching(u)
  {
  }

  lemma QuietTick(e: Engine, healthy: bool)
    requires e.muxer.None? || !healthy
    ensures ToldByTick(e, healthy) == []
  {
  }

  lemma PushTraced(t: Trace, ps: seq<MediaPacket>)
    requires Traced(t) && AllFit(ps)
    ensures Traced(Follow(t, PushEv(ps)))
  {
    hide PushSeq, PushDrops, PolicyDrops, FitsConfig, BeforeLastKey, Fits, TagsOf, Matching, Intact, Wellformed;
    PushSeqFits(t.w.engine.buffer, ps);
    SameView(t, Follow(t, PushEv(ps)));
  }

  /** The tags and the frames of a connection that goes move to those that are gone. */
  lemma HangKeeps(t: Trace, w: World)
    requires Traced(t) && w.ended == t.w.ended && w.past == t.w.past + Current(t.w.engine) && Current(w.engine) == []
    ensures Matching(Hang(t).(w := w))
  {
    hide TagsOf, Current, Fitting, MuxOk, Shows;
    NothingMatches();
    MatchingAll(t);
    assert GoneTags(w) == AllTags(t.w);
    if t.w.engine.muxer.Some? {
      ConcatSnoc(t.lines, t.here);
    } else {
      assert Concat(t.lines) + [] == Concat(t.lines);
    }
  }

  lemma AttachTraced(t: Trace, room: nat)
    requires Traced(t)
    ensures Traced(Follow(t, AttachEv(room)))
  {
    hide TagsOf, Matching, Fits, Concat, Drain, StepOf;
    NoBytesNoTags();
    var w := Next(t.w, AttachEv(room));
    assert Current(w.engine) == [];
    HangKeeps(t, w);
  }

  lemma DetachTraced(t: Trace)
    requires Traced(t)
    ensures Traced(Follow(t, DetachEv))
  {
    hide TagsOf, Matching, Fits, FitsConfig, Concat, BeforeLastKey;
    HangKeeps(t, Next(t.w, DetachEv));
  }

  lemma ConfigureTraced(t: Trace, avcc: Option<bytes>, asc: Option<bytes>)
    requires Traced(t) && FitsConfig(avcc) && FitsConfig(asc)
    ensures Traced(Follow(t, ConfigureEv(avcc, asc)))
  {
    hide InitCodecs, TagsOf, Matching, Fits, FitsConfig, Grew, Intact, Wellformed, FramesOf;
    var e := t.w.engine;
    var w := Next(t.w, ConfigureEv(avcc, asc));
    if e.muxer.Some? {
      var m := e.muxer.value;
      CodecsGrew(m, avcc, asc);
      CodecsKeep(m, avcc, asc);
      var n := InitCodecs(m, avcc, asc).0;
      Widen(m, n, [], Some(e.meta));
      GrewIntact(m, n, [], Some(e.meta));
      GrewTags(m, n, [], Some(e.meta));
      assert t.here + [] == t.here;
      NothingMatches();
      HereGrows(t, w, [], []);
    } else {
      SameView(t, Follow(t, ConfigureEv(avcc, asc)));
    }
  }

  lemma NothingMatches()
    ensures Match([], [])
  {
  }

  lemma ResyncTraced(t: Trace)
    requires Traced(t)
    ensures Traced(Follow(t, ResyncEv))
  {
    hide TagsOf, Matching, Fits, FitsConfig, BeforeLastKey, Intact, Wellformed;
    SameView(t, Follow(t, ResyncEv));
  }

  function FinishFrames(e: Engine): seq<FlvTag>
    requires e.muxer.Some?
  {
    StrictFrames(e.muxer.value, Batch(e))
  }

  /** The final drain on a connection that stays, whether or not it will. */
  lemma FinishHere(t: Trace, flushes: bool)
    requires Traced(t) && t.w.engine.muxer.Some?
    ensures var e := t.w.engine;
      var w := t.w.(engine := Drained(e).(muxer := Some(FinishMux(e))));
      Traced(t.(w := w, here := t.here + ToldByFinish(e, flushes)))
  {
    hide Batch, SendStrict, StrictFrames, ToldByStrict, TagsOf, FitsConfig, Kept, Orphans, HasKeyframe, Fits, Grew,
         Intact, Wellformed, Match, FramesOf, Matching, Finish;
    var e, m := t.w.engine, t.w.engine.muxer.value;
    BatchFits(e);
    StrictWire(m, Batch(e), FinishFate(e, flushes));
    var n := FinishMux(e);
    Widen(m, n, FinishFrames(e), Some(e.meta));
    GrewIntact(m, n, FinishFrames(e), Some(e.meta));
    GrewTags(m, n, FinishFrames(e), Some(e.meta));
    HereGrows(t, t.w.(engine := Drained(e).(muxer := Some(n))), FinishFrames(e), ToldByFinish(e, flushes));
  }

  /** A stream that ends takes its tags and its last connection's frames along unchanged. */
  lemma StreamEnds(u: Trace, f: Trace)
    requires Matching(u) && f.w.ended == u.w.ended + [u.w.past + Current(u.w.engine)] && f.w.past == []
    requires Current(f.w.engine) == [] && f.lines == u.lines + [u.here] && f.here == []
    ensures Matching(f)
  {
    hide Current, Shows;
    NothingMatches();
    MatchingAll(u);
    ConcatSnoc(u.w.ended, u.w.past + Current(u.w.engine));
    ConcatSnoc(u.lines, u.here);
    assert GoneTags(f.w) == AllTags(u.w);
  }

  lemma FinishShape(t: Trace, flushes: bool)
    requires t.w.engine.muxer.Some?
    ensures var e, w, f := t.w.engine, Next(t.w, FinishEv(flushes)), Follow(t, FinishEv(flushes));
      var here := t.here + ToldByFinish(e, flushes);
      && f.w == w && w.engine.meta == e.meta && (w.engine.muxer.Some? ==> w.engine.muxer.value == FinishMux(e))
      && w.engine.avcc == e.avcc && w.engine.asc == e.asc && w.engine.buffer.queue == []
      && (w.engine.muxer.None? ==>
            && w.ended == t.w.ended + [t.w.past + TagsOf(FinishMux(e).sink.log)] && w.past == []
            && f.lines == t.lines + [here] && f.here == [])
      && (w.engine.muxer.Some? ==> w.ended == t.w.ended && w.past == t.w.past && f.lines == t.lines && f.here == here)
  {
    hide Batch, SendStrict, ToldByFinish, TagsOf, Orphans, HasKeyframe;
  }

  lemma FinishTraced(t: Trace, flushes: bool)
    requires Traced(t)
    ensures Traced(Follow(t, FinishEv(flushes)))
  {
    hide Next, Follow, Finish, FinishMux, ToldByFinish, TagsOf, FitsConfig, Fits, Intact, Wellformed, Matching;
    var e, f := t.w.engine, Follow(t, FinishEv(flushes));
    if e.muxer.Some? {
      FinishHere(t, flushes);
      FinishShape(t, flushes);
      var u := t.(w := t.w.(engine := Drained(e).(muxer := Some(FinishMux(e)))),
                  here := t.here + ToldByFinish(e, flushes));
      if f.w.engine.muxer.None? {
        StreamEnds(u, f);
      } else {
        SameView(u, f);
      }
    } else {
      NothingToFinish(t, flushes);
    }
  }

  lemma NothingToFinish(t: Trace, flushes: bool)
    requires t.w.engine.muxer.None?
    ensures Follow(t, FinishEv(flushes)) == t
  {
  }

  lemma StepTraced(t: Trace, ev: Event)
    requires Traced(t) && FitEvent(ev)
    ensures Traced(Follow(t, ev))
  {
    hide Traced, Follow, Fits, FitsConfig;
    match ev
    case PushEv(ps) => PushTraced(t, ps);
    case TickEv(healthy, flushes) => TickTraced(t, healthy, flushes);
    case AttachEv(room) => AttachTraced(t, room);
    case DetachEv => DetachTraced(t);
    case ConfigureEv(avcc, asc) => ConfigureTraced(t, avcc, asc);
    case ResyncEv => ResyncTraced(t);
    case FinishEv(flushes) => FinishTraced(t, flushes);
  }

  // ---------------------------------------------------------------------------------
  // What the packets written down are
  // ---------------------------------------------------------------------------------

  /** What was forgotten is among what a finish lost. */
  ghost predicate ForgottenIn(told: seq<Told>, lost: seq<MediaPacket>) {
    forall i :: 0 <= i < |told| && told[i].fate == Forgotten ==> told[i].packet in lost
  }

  /** Every line ends with its echo, if it has one, and an echo is of a connection that failed. */
  ghost predicate Ledgered(t: Trace) {
    && CountedOf(AllTold(t)) == t.w.muxed
    && (forall i :: 0 <= i < |t.lines| ==> OneEcho(t.lines[i]))
    && OneEcho(t.here)
    && (Echoing(t.here) ==> t.w.engine.muxer.Some? && t.w.engine.muxer.value.sink.dead)
    && ForgottenIn(AllTold(t), t.w.lost)
    && (t.w.engine.muxer.None? ==> t.here == [])
  }

  /** What a tick on an attached transport told, and a dead sink stays dead and shows nothing more. */
  lemma SendBatchTells(e: Engine, m: Mux, flushes: bool)
    requires AllFit(e.buffer.queue) && e.muxer == Some(m)
    ensures var told, r := ToldByTick(e, true), SendBatch(e, m, flushes);
      TellsSent(told, Batch(e), r) && (m.sink.dead ==> told == [] && r.muxer.sink.dead)
  {
    hide Preamble, Send, Batch, ToldBySend, CountedOf, OneEcho;
    NothingTold();
    PreambleDead(e, m);
    BatchFits(e);
    var pre := Preamble(e, m);
    if pre.1 == Done {
      SendCounts(pre.0, Batch(e));
      SendDead(pre.0, Batch(e));
    } else {
      assert Batch(e)[..0] == [];
    }
  }

  lemma TickCounts(e: Engine, healthy: bool, flushes: bool)
    requires AllFit(e.buffer.queue)
    ensures var told, n := ToldByTick(e, healthy), Tick(e, healthy, flushes).0;
      && CountedOf(told) == TickSent(e, healthy, flushes) && OneEcho(told)
      && (forall i :: 0 <= i < |told| ==> told[i].fate != Forgotten)
      && (e.muxer.Some? ==> n.muxer.Some? && (e.muxer.value.sink.dead ==> told == [] && n.muxer.value.sink.dead))
      && (e.muxer.None? ==> told == [] && n.muxer.None?)
      && (Echoing(told) ==>
            && n.muxer.Some? && n.muxer.value.sink.dead
            && n.buffer.queue != [] && n.buffer.queue[0] == told[|told| - 1].packet)
  {
    hide SendBatch, Batch, ToldBySend, Preamble, Orphans, HasKeyframe, CountedOf, OneEcho;
    NothingTold();
    if e.muxer.Some? && healthy {
      SendBatchTells(e, e.muxer.value, flushes);
      var r := SendBatch(e, e.muxer.value, flushes);
      assert Batch(e)[r.sent..] + [] == Batch(e)[r.sent..];
    }
  }

  lemma NothingTold()
    ensures CountedOf([]) == [] && OneEcho([]) && !Echoing([])
  {
  }

  lemma PreambleDead(e: Engine, m: Mux)
    ensures m.sink.dead ==> Preamble(e, m).0.sink.dead
  {
    hide TagBytes, FILE_HEADER;
  }

  lemma {:induction false} SendDead(m: Mux, batch: seq<MediaPacket>)
    requires AllFit(batch)
    ensures m.sink.dead ==> Send(m, batch).muxer.sink.dead
    decreases |batch|
  {
    hide WriteOrRebase, FrameShown, Fits;
    if batch != [] {
      assert Fits(batch[0]);
      FailedWrite(m, batch[0]);
      StaysDead(m, batch[0]);
    }
  }

  lemma StaysDead(m: Mux, p: MediaPacket)
    ensures m.sink.dead ==> WriteOrRebase(m, p).0.sink.dead && WritePacket(m, p).0.sink.dead
  {
    hide TagBytes, FILE_HEADER, AnnexBToAvcc, AdtsToAsc, MediaTag, TrackTime;
  }

  /** None is an echo, and all are of packets of the batch. */
  ghost predicate AllFrom(told: seq<Told>, batch: seq<MediaPacket>) {
    forall i :: 0 <= i < |told| ==> told[i].fate != Echoed && told[i].packet in batch
  }

  lemma OneMoreFrom(first: Told, rest: seq<Told>, batch: seq<MediaPacket>)
    requires batch != [] && first.packet == batch[0] && first.fate != Echoed && AllFrom(rest, batch[1..])
    ensures AllFrom([first] + rest, batch)
  {
    var all := [first] + rest;
    forall i | 0 <= i < |all| ensures all[i].fate != Echoed && all[i].packet in batch {
      if i > 0 {
        assert all[i] == rest[i - 1] && rest[i - 1].packet in batch[1..];
      }
    }
  }

  lemma {:induction false} StrictCounts(m: Mux, batch: seq<MediaPacket>, fate: Fate)
    requires AllFit(batch) && fate != Echoed
    ensures var told := ToldByStrict(m, batch, fate);
      && (fate == Forgotten ==> CountedOf(told) == [])
      && (SendStrict(m, batch).1 == Done && fate == Counted ==> CountedOf(told) == batch)
      && (SendStrict(m, batch).1 == Done && fate == Counted ==> forall i :: 0 <= i < |told| ==> told[i].fate == Counted)
      && AllFrom(told, batch)
      && (m.sink.dead ==> told == [] && SendStrict(m, batch).0.sink.dead)
    decreases |batch|
  {
    hide WritePacket, PacketShown, Fits;
    if batch != [] {
      var p := batch[0];
      assert Fits(p);
      FailedWrite(m, p);
      StaysDead(m, p);
      var (n, r) := WritePacket(m, p);
      if r == Done {
        StrictCounts(n, batch[1..], fate);
        var rest := ToldByStrict(n, batch[1..], fate);
        assert ([Told(p, fate, StampOf(m, p))] + rest)[1..] == rest;
        assert batch == [p] + batch[1..];
        OneMoreFrom(Told(p, fate, StampOf(m, p)), rest, batch);
      } else {
        assert [Told(p, Forgotten, StampOf(m, p))][1..] == [];
      }
    }
  }

  lemma ForgottenAppend(a: seq<Told>, b: seq<Told>, lost: seq<MediaPacket>, more: seq<MediaPacket>)
    requires ForgottenIn(a, lost) && ForgottenIn(b, lost + more)
    ensures ForgottenIn(a + b, lost + more)
  {
  }

  lemma OneEchoAppend(a: seq<Told>, b: seq<Told>)
    requires OneEcho(a) && OneEcho(b) && (b == [] || !Echoing(a))
    ensures OneEcho(a + b) && (Echoing(a + b) <==> if b == [] then Echoing(a) else Echoing(b))
  {
    if b == [] {
      assert a + b == a;
    } else {
      assert (a + b)[|a + b| - 1] == b[|b| - 1];
    }
  }

  /** The connection told `more`, of which `counted` were counted. */
  lemma LedgerGrows(t: Trace, w: World, more: seq<Told>, extra: seq<MediaPacket>)
    requires Ledgered(t) && OneEcho(more) && (more == [] || !Echoing(t.here))
    requires w.muxed == t.w.muxed + CountedOf(more) && w.lost == t.w.lost + extra && ForgottenIn(more, w.lost)
    requires w.engine.muxer.Some? && (Echoing(t.here) || Echoing(more) ==> w.engine.muxer.value.sink.dead)
    ensures Ledgered(t.(w := w, here := t.here + more))
  {
    hide CountedOf, OneEcho, ForgottenIn, Concat;
    var u := t.(w := w, here := t.here + more);
    assert AllTold(u) == AllTold(t) + more;
    CountedAppend(AllTold(t), more);
    ForgottenAppend(AllTold(t), more, t.w.lost, extra);
    OneEchoAppend(t.here, more);
  }

  /** The connection goes. */
  lemma LedgerHangs(t: Trace, w: World)
    requires Ledgered(t) && w.muxed == t.w.muxed && t.w.lost <= w.lost
    ensures Ledgered(Hang(t).(w := w))
  {
    hide CountedOf, OneEcho, ForgottenIn, AllTold;
    NothingTold();
    HangTells(t, w);
    LostGrows(AllTold(t), t.w.lost, w.lost);
  }

  lemma HangTells(t: Trace, w: World)
    requires t.w.engine.muxer.None? ==> t.here == []
    ensures AllTold(Hang(t).(w := w)) == AllTold(t)
  {
    hide Concat;
    ConcatSnoc(t.lines, t.here);
  }

  lemma LostGrows(told: seq<Told>, a: seq<MediaPacket>, b: seq<MediaPacket>)
    requires ForgottenIn(told, a) && a <= b
    ensures ForgottenIn(told, b)
  {
    forall i | 0 <= i < |told| && told[i].fate == Forgotten ensures told[i].packet in b {
      var k :| 0 <= k < |a| && a[k] == told[i].packet;
      assert b[k] == told[i].packet;
    }
  }

  /** Nothing that the ledger speaks of changed. */
  lemma LedgerStays(t: Trace, w: World)
    requires Ledgered(t) && w.muxed == t.w.muxed && w.lost == t.w.lost
    requires w.engine.muxer.Some? == t.w.engine.muxer.Some?
    requires Echoing(t.here) ==> w.engine.muxer.value.sink.dead
    ensures Ledgered(t.(w := w))
  {
  }

  lemma TickLedgered(t: Trace, healthy: bool, flushes: bool)
    requires Ledgered(t) && Fitting(t.w.engine)
    ensures Ledgered(Follow(t, TickEv(healthy, flushes)))
  {
    hide Tick, TickSent, TickDrops, ToldByTick, CountedOf, OneEcho, ForgottenIn, Fits, FitsConfig, Ledgered;
    var e, w := t.w.engine, Next(t.w, TickEv(healthy, flushes));
    TickCounts(e, healthy, flushes);
    NoneForgotten(ToldByTick(e, healthy), w.lost);
    LedgerFacts(t);
    assert t.w.lost + [] == t.w.lost;
    if e.muxer.Some? {
      LedgerGrows(t, w, ToldByTick(e, healthy), []);
    } else {
      NothingTold();
      assert t.here + [] == t.here && t.w.muxed + [] == t.w.muxed;
      LedgerStays(t, w);
    }
  }

  lemma NoneForgotten(told: seq<Told>, lost: seq<MediaPacket>)
    requires forall i :: 0 <= i < |told| ==> told[i].fate != Forgotten
    ensures ForgottenIn(told, lost)
  {
  }

  lemma LedgerFacts(t: Trace)
    requires Ledgered(t)
    ensures Echoing(t.here) ==> t.w.engine.muxer.Some? && t.w.engine.muxer.value.sink.dead
    ensures t.w.engine.muxer.None? ==> t.here == []
  {
  }

  lemma FinishLedgered(t: Trace, flushes: bool)
    requires Ledgered(t) && Fitting(t.w.engine)
    ensures Ledgered(Follow(t, FinishEv(flushes)))
  {
    hide Batch, SendStrict, ToldByStrict, CountedOf, OneEcho, ForgottenIn, Fits, FitsConfig, Ledgered, TagsOf,
         TickDrops, HasKeyframe, Orphans;
    var e, w := t.w.engine, Next(t.w, FinishEv(flushes));
    if e.muxer.Some? {
      var m, batch, fate := e.muxer.value, Batch(e), FinishFate(e, flushes);
      var told := ToldByFinish(e, flushes);
      BatchFits(e);
      StrictCounts(m, batch, fate);
      LedgerFacts(t);
      NotEchoing(told);
      var extra := if fate == Counted then [] else batch;
      assert t.w.lost + [] == t.w.lost && t.w.muxed + [] == t.w.muxed;
      ForgottenAreLost(told, batch, t.w.lost, fate);
      var u := t.w.(engine := Drained(e).(muxer := Some(FinishMux(e))), muxed := w.muxed, lost := w.lost);
      LedgerGrows(t, u, told, extra);
      var v := t.(w := u, here := t.here + told);
      if fate == Counted {
        LedgerHangs(v, w);
      } else {
        LedgerStays(v, w);
      }
    } else {
      NothingToFinish(t, flushes);
    }
  }

  lemma NotEchoing(told: seq<Told>)
    requires forall i :: 0 <= i < |told| ==> told[i].fate != Echoed
    ensures OneEcho(told) && !Echoing(told)
  {
  }

  lemma ForgottenAreLost(told: seq<Told>, batch: seq<MediaPacket>, lost: seq<MediaPacket>, fate: Fate)
    requires forall i :: 0 <= i < |told| ==> told[i].packet in batch
    requires fate == Counted ==> forall i :: 0 <= i < |told| ==> told[i].fate == Counted
    ensures ForgottenIn(told, lost + if fate == Counted then [] else batch)
  {
  }

  lemma StepLedgered(t: Trace, ev: Event)
    requires Ledgered(t) && Fitting(t.w.engine)
    ensures Ledgered(Follow(t, ev))
  {
    hide PushAll, PushDrops, PolicyDrops, Attach, Detach, CutDrops, ConfigureCodecs, Resync, Fits, FitsConfig,
         Ledgered, TagsOf, CountedOf, OneEcho, ForgottenIn;
    LedgerFacts(t);
    match ev
    case PushEv(ps) =>
      PushKeepsMuxer(t.w.engine, ps);
      LedgerStays(t, Next(t.w, ev));
    case TickEv(healthy, flushes) => TickLedgered(t, healthy, flushes);
    case AttachEv(_) => LedgerHangs(t, Next(t.w, ev));
    case DetachEv => LedgerHangs(t, Next(t.w, ev));
    case ConfigureEv(avcc, asc) =>
      ConfigureKeepsDead(t.w.engine, avcc, asc);
      LedgerStays(t, Next(t.w, ev));
    case ResyncEv => LedgerStays(t, Next(t.w, ev));
    case FinishEv(flushes) => FinishLedgered(t, flushes);
  }

  lemma PushKeepsMuxer(e: Engine, ps: seq<MediaPacket>)
    ensures PushAll(e, ps).muxer == e.muxer
  {
    hide PushSeq, EnforceDropPolicy;
  }

  lemma ConfigureKeepsDead(e: Engine, avcc: Option<bytes>, asc: Option<bytes>)
    ensures var n := ConfigureCodecs(e, avcc, asc).0.muxer;
      n.Some? == e.muxer.Some? && (e.muxer.Some? && e.muxer.value.sink.dead ==> n.value.sink.dead)
  {
    hide TagBytes, FILE_HEADER;
  }

  function NewTrace(profile: LatencyProfile, meta: bytes): Trace {
    Trace(NewWorld(profile, meta), [], [])
  }

  lemma {:induction false} RunTraced(t: Trace, events: seq<Event>)
    requires Traced(t) && Ledgered(t) && AllFitEvents(events)
    ensures var u := FollowAll(t, events); Traced(u) && Ledgered(u) && u.w == Run(t.w, events)
    decreases |events|
  {
    hide Traced, Ledgered, Record, Next, FitEvent;
    if events != [] {
      assert FitEvent(events[0]);
      TracedFits(t);
      StepTraced(t, events[0]);
      StepLedgered(t, events[0]);
      assert forall i :: 0 <= i < |events[1..]| ==> events[1..][i] == events[i + 1];
      RunTraced(Follow(t, events[0]), events[1..]);
    }
  }

  lemma TracedFits(t: Trace)
    requires Traced(t)
    ensures Fitting(t.w.engine)
  {
  }

  /** What a run wrote down about the wire. */
  ghost predicate TellsMuxed(t: Trace) {
    && Match(FramesOf(AllTags(t.w)), AllTold(t))
    && CountedOf(AllTold(t)) == t.w.muxed
    && (forall i :: 0 <= i < |t.lines| ==> OneEcho(t.lines[i])) && OneEcho(t.here)
    && (Echoing(t.here) ==> t.w.engine.muxer.Some? && t.w.engine.muxer.value.sink.dead)
    && ForgottenIn(AllTold(t), t.w.lost)
  }

  /**
    Over every run from a new engine, failing writes, replaced transports and finishes included: the
    frames that peers saw, over all connections, are frame by frame those of the packets written down.
    The counted ones among these are exactly the muxed packets, in order. Beyond them a connection
    showed at most one frame, its last, and only once its transport had failed (`RestoredHeadSeen` says
    whose and when), and the frames of packets that a failed finish lost.
   */
  lemma WireTellsMuxed(profile: LatencyProfile, meta: bytes, events: seq<Event>)
    requires |meta| < TWO_24 && AllFitEvents(events)
    ensures var t := FollowAll(NewTrace(profile, meta), events);
      t.w == Run(NewWorld(profile, meta), events) && TellsMuxed(t)
  {
    hide FollowAll, Run, FitEvent;
    NothingTold();
    NothingMatches();
    RunTraced(NewTrace(profile, meta), events);
    TracedMatches(FollowAll(NewTrace(profile, meta), events));
  }

  lemma TracedMatches(t: Trace)
    requires Traced(t)
    ensures Match(FramesOf(AllTags(t.w)), AllTold(t))
  {
    MatchingAll(t);
  }

  // ---------------------------------------------------------------------------------
  // The packet that came back although its frame was seen
  // ---------------------------------------------------------------------------------

  /** A send up to its first failure: whether the frame of the packet it failed on was seen. */
  lemma {:induction false} SendEcho(m: Mux, batch: seq<MediaPacket>)
    requires Send(m, batch).sent < |batch|
    ensures var k := Send(m, batch).sent;
      Echoing(ToldBySend(m, batch)) <==> FrameShown(Send(m, batch[..k]).muxer, batch[k]) != []
    decreases |batch|
  {
    hide WriteOrRebase, FrameShown;
    var (n, r) := WriteOrRebase(m, batch[0]);
    if r == Done {
      SendEcho(n, batch[1..]);
      var k := Send(n, batch[1..]).sent;
      assert batch[..k + 1][1..] == batch[1..][..k];
      var rest := ToldBySend(n, batch[1..]);
      assert Echoing([Told(batch[0], Counted, StampOf(m, batch[0]))] + rest) == Echoing(rest);
    }
  }

  /** The bytes a tick needs up to the end of the body of the `k`-th packet, short of its trailing size. */
  function BytesUpTo(e: Engine, m: Mux, k: nat): nat
    requires k < |Batch(e)|
  {
    var a, batch := AfterPreamble(e, m), Batch(e);
    PreambleBytes(e, m) + BytesOf(a, batch[..k])
    + LeadBytes(WithLeads(a, batch[..k]), batch[k]) + 11 + FrameSize(batch[k])
  }

  /** The send of a batch stops at `k`, and the frame it stops at is seen all the same. */
  lemma StopsSeen(m: Mux, a: Mux, batch: seq<MediaPacket>, k: nat)
    requires k < |batch| && AllFit(batch) && SameHeaders(m, a)
    ensures Send(m, batch).sent == k && Echoing(ToldBySend(m, batch)) <==>
      var at, p := WithLeads(a, batch[..k]), batch[k];
      && AllKnown(a, batch[..k]) && Known(at, p)
      && BytesOf(a, batch[..k]) + LeadBytes(at, p) + 11 + FrameSize(p) <= Room(m.sink)
      && Room(m.sink) < BytesOf(a, batch[..k]) + BytesFor(at, p)
  {
    hide Send, ToldBySend, Fits, FrameShown, Known, LeadBytes, BytesFor, FrameSize, Room, AllKnown, BytesOf,
         WithLeads, SameHeaders, Echoing;
    var p, n := batch[k], Send(m, batch[..k]).muxer;
    assert Fits(p);
    SendReaches(m, batch, k);
    SendReaches(m, batch, k + 1);
    SendReaches(m, batch[..k], k);
    assert batch[..k][..k] == batch[..k];
    BatchNeeds(m, a, batch[..k]);
    NeedsOneMore(m, a, batch, k);
    if Send(m, batch).sent >= k {
      SentLeaves(m, batch[..k]);
      HeadersJoin(n, WithLeads(m, batch[..k]), WithLeads(a, batch[..k]));
      PacketNeeds(n, WithLeads(a, batch[..k]), p);
      BytesSplit(n, p);
      FrameShownIs(n, p);
      if Send(m, batch).sent == k {
        SendEcho(m, batch);
      }
    } else if AllKnown(a, batch[..k]) {
      assert Room(m.sink) < BytesOf(a, batch[..k]);
    }
  }

  /** One packet more: known behind the ones before it, with its bytes on top of theirs. */
  lemma {:induction false} NeedsOneMore(m: Mux, a: Mux, batch: seq<MediaPacket>, k: nat)
    requires k < |batch| && SameHeaders(m, a)
    ensures var at := WithLeads(a, batch[..k]);
      && (AllKnown(m, batch[..k + 1]) <==> AllKnown(a, batch[..k]) && Known(at, batch[k]))
      && BytesOf(m, batch[..k + 1]) == BytesOf(a, batch[..k]) + BytesFor(at, batch[k])
    decreases k
  {
    hide Known, BytesFor, WithLead, SameHeaders;
    PacketNeeds(m, a, batch[0]);
    assert batch[..k + 1][1..] == batch[1..][..k];
    if k > 0 {
      assert batch[..k][1..] == batch[1..][..k - 1];
      NeedsOneMore(WithLead(m, batch[0]), WithLead(a, batch[0]), batch[1..], k - 1);
    }
  }

  /**
    A packet comes back to the front of the buffer although its frame was seen exactly when, said of the
    state before the tick, every packet up to it is known and the transport takes everything up to the
    end of its body, but not the four bytes behind it.
   */
  lemma RestoredHeadSeen(e: Engine, flushes: bool, k: nat)
    requires e.muxer.Some? && AllFit(e.buffer.queue) && k < |Batch(e)|
    ensures var m, a, batch := e.muxer.value, AfterPreamble(e, e.muxer.value), Batch(e);
      Tick(e, true, flushes).0.buffer.queue == batch[k..] && Echoing(ToldByTick(e, true)) <==>
        && AllKnown(a, batch[..k]) && Known(WithLeads(a, batch[..k]), batch[k])
        && BytesUpTo(e, m, k) <= Room(m.sink) < BytesUpTo(e, m, k) + 4
  {
    hide Preamble, Send, Batch, ToldBySend, Orphans, HasKeyframe, Fits, Known, FrameSize, LeadBytes, Room, AllKnown,
         BytesOf, WithLeads, PreambleBytes, AfterPreamble, SameHeaders, Echoing, SameClock;
    var m, a, batch := e.muxer.value, AfterPreamble(e, e.muxer.value), Batch(e);
    BatchFits(e);
    PreambleRoom(e, m);
    BytesSplit(WithLeads(a, batch[..k]), batch[k]);
    var pre := Preamble(e, m);
    if pre.1 == Done {
      ClockHeaders(pre.0, a);
      StopsSeen(pre.0, a, batch, k);
      LeftOver(e, flushes, k);
    } else {
      NoEcho();
    }
  }

  lemma NoEcho()
    ensures !Echoing([])
  {
  }

  lemma ClockHeaders(a: Mux, b: Mux)
    requires SameClock(a, b)
    ensures SameHeaders(a, b)
  {
  }

  /** What is left in the buffer says where the tick stopped. */
  lemma LeftOver(e: Engine, flushes: bool, k: nat)
    requires e.muxer.Some? && Preamble(e, e.muxer.value).1 == Done && k < |Batch(e)|
    ensures Tick(e, true, flushes).0.buffer.queue == Batch(e)[k..] <==>
      Send(Preamble(e, e.muxer.value).0, Batch(e)).sent == k
  {
    hide Preamble, Batch, Orphans, HasKeyframe;
    var batch, r := Batch(e), SendBatch(e, e.muxer.value, flushes);
    assert batch[r.sent..] + [] == batch[r.sent..];
    assert |batch[r.sent..]| == |batch| - r.sent && |batch[k..]| == |batch| - k;
  }

  /**
    The input where wire and buffer hold the same packet: audio is flowing, one audio packet waits, and
    the sink takes its tag up to somewhere inside the trailing size. The peer sees the frame, and the
    packet is back in the buffer.
   */
  lemma SeenAndReturned(w: World, m: Mux, p: MediaPacket, flushes: bool)
    requires w.engine.muxer == Some(m) && w.engine.metadataWritten && w.engine.buffer.queue == [p] && p.kind == Audio
    requires Intact(m) && m.header && m.videoSeq && m.audioSeq && TrackTime(m, p).Some? && Fits(p)
    requires !m.sink.dead && 11 + FrameSize(p) <= m.sink.room < 15 + FrameSize(p)
    ensures var n := Next(w, TickEv(true, flushes));
      && n.engine.buffer.queue == [p] && n.muxed == w.muxed
      && Seen(n) == Seen(w) + [MediaTag(m, p, TrackTime(m, p).value)]
  {
    hide TagBytes, TagsOf, MediaTag, FrameSize, Fits, StripAdts;
    var e, ts := w.engine, TrackTime(m, p).value;
    OneKept(p, e.awaitingKeyframe);
    NothingToAdd(e, m);
    MediaTagShape(m, p, ts);
    FrameSizeIs(m, p, ts);
    PutTagSeen(m.sink, MediaTag(m, p, ts));
    assert WriteOrRebase(m, p) == WriteMedia(m, p);
    assert Send(m, [p]) == SendResult(WriteMedia(m, p).0, 0, Io);
    assert [p][0..] == [p] && [p] + [] == [p] && [p][..0] == [] && w.muxed + [] == w.muxed;
  }
}
