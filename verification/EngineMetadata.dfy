/**
  How often a connection shows its peer the metadata: once more with every tick until one succeeds. A
  tick that fails while its transport lives leads to the same tag again.
 */
module EngineMetadata {
  import opened Bytes
  import opened Media
  import opened FlvTags
  import opened Mux
  import opened MuxRoom
  import opened Timeline
  import opened TagLog
  import opened Backpressure
  import opened Engines
  import opened EngineRoom
  import opened EngineRuns
  import opened EngineTimeline
  import opened EngineWire
  import Flv

  function ScriptsOf(tags: seq<FlvTag>): seq<FlvTag> {
    if tags == [] then [] else (if IsScript(tags[0]) then [tags[0]] else []) + ScriptsOf(tags[1..])
  }

  /** How many metadata tags the attached connection has shown. */
  function Announced(e: Engine): nat {
    |ScriptsOf(Current(e))|
  }

  lemma {:induction false} ScriptsAppend(a: seq<FlvTag>, b: seq<FlvTag>)
    ensures ScriptsOf(a + b) == ScriptsOf(a) + ScriptsOf(b)
  {
    if a == [] {
      assert a + b == b;
    } else {
      assert (a + b)[1..] == a[1..] + b;
      ScriptsAppend(a[1..], b);
    }
  }

  lemma {:induction false} NoScriptAmong(tags: seq<FlvTag>)
    requires AllWellformed(tags, None)
    ensures ScriptsOf(tags) == []
  {
    if tags != [] {
      assert Wellformed(tags[0], None);
      assert forall i :: 0 <= i < |tags[1..]| ==> tags[1..][i] == tags[i + 1];
      NoScriptAmong(tags[1..]);
    }
  }

  /** Only the metadata call adds a script tag. */
  lemma NoScriptAdded(m: Mux, n: Mux, frames: seq<FlvTag>)
    requires Grew(m, n, frames, None)
    ensures ScriptsOf(TagsOf(n.sink.log)) == ScriptsOf(TagsOf(m.sink.log))
  {
    hide TagsOf, FramesOf, Wellformed, Intact;
    var more :| Added(m, n, more) && FramesOf(more) == frames && AllWellformed(more, None);
    NoScriptAmong(more);
    ScriptsAppend(TagsOf(m.sink.log), more);
  }

  /** Whether a healthy tick shows the metadata: no tick has succeeded yet, and the tag's header and body find room. */
  predicate Announces(e: Engine) {
    && e.muxer.Some? && !e.metadataWritten
    && HeaderBytes(e.muxer.value) + 11 + |e.meta| <= Room(e.muxer.value.sink)
  }

  lemma MetadataAdds(m: Mux, meta: bytes)
    requires Intact(m) && |meta| < TWO_24
    ensures |ScriptsOf(TagsOf(WriteMetadata(m, meta).0.sink.log))| ==
      |ScriptsOf(TagsOf(m.sink.log))| + if HeaderBytes(m) + 11 + |meta| <= Room(m.sink) then 1 else 0
  {
    hide TagBytes, Drain, StepOf, TagsOf, FILE_HEADER, IsMedia;
    PutHeaderSeen(m);
    HeaderRoom(m);
    var h := EnsureHeader(m);
    if h.header {
      var t := TagAt(Flv.TAG_SCRIPT, HeaderTs(h), meta);
      if !h.sink.dead {
        PutTagSeen(h.sink, t);
        OneScript(t);
        ScriptsAppend(TagsOf(h.sink.log), [t]);
        assert TagsOf(h.sink.log) + [] == TagsOf(h.sink.log);
      }
    }
  }

  lemma OneScript(t: FlvTag)
    requires IsScript(t)
    ensures ScriptsOf([t]) == [t]
  {
    assert [t][1..] == [];
  }

  lemma CodecsAddNone(m: Mux, avcc: Option<bytes>, asc: Option<bytes>)
    requires Intact(m) && FitsConfig(avcc) && FitsConfig(asc)
    ensures ScriptsOf(TagsOf(InitCodecs(m, avcc, asc).0.sink.log)) == ScriptsOf(TagsOf(m.sink.log))
  {
    hide InitCodecs, TagsOf, Intact, Grew;
    CodecsGrew(m, avcc, asc);
    NoScriptAdded(m, InitCodecs(m, avcc, asc).0, []);
  }

  lemma PreambleAnnounces(e: Engine, m: Mux)
    requires Fitting(e) && Intact(m) && e.muxer == Some(m)
    ensures |ScriptsOf(TagsOf(Preamble(e, m).0.sink.log))| ==
      |ScriptsOf(TagsOf(m.sink.log))| + if Announces(e) then 1 else 0
  {
    hide WriteMetadata, InitCodecs, TagsOf, Intact, Grew, FitsConfig, Room;
    MetadataAdds(m, e.meta);
    MetadataGrew(m, e.meta);
    var meta := if e.metadataWritten then (m, Done) else WriteMetadata(m, e.meta);
    GrewIntact(m, WriteMetadata(m, e.meta).0, [], Some(e.meta));
    CodecsAddNone(meta.0, e.avcc, e.asc);
  }

  /**
    One tick: one more metadata tag exactly when, before it, no tick of this connection had succeeded yet
    and the tag finds room; and it is the last one exactly when the tick succeeds.
   */
  lemma TickAnnounces(e: Engine, flushes: bool)
    requires Fitting(e) && e.muxer.Some? && Intact(e.muxer.value)
    ensures var (n, r) := Tick(e, true, flushes);
      && Announced(n) == Announced(e) + (if Announces(e) then 1 else 0)
      && (n.metadataWritten <==> e.metadataWritten || r.Muxed?)
  {
    hide Preamble, Send, Batch, TagsOf, Intact, Grew, FitsConfig, SendFrames, ToldBySend, Fits, Announces, Kept,
         Orphans, HasKeyframe;
    var m := e.muxer.value;
    PreambleAnnounces(e, m);
    PreambleGrew(e, m);
    BatchFits(e);
    var pre := Preamble(e, m);
    if pre.1 == Done {
      GrewIntact(m, pre.0, [], Some(e.meta));
      SendWire(pre.0, Batch(e));
      NoScriptAdded(pre.0, Send(pre.0, Batch(e)).muxer, SendFrames(pre.0, Batch(e)));
    }
  }

  // ---------------------------------------------------------------------------------
  // One connection
  // ---------------------------------------------------------------------------------

  /** Pushes, ticks and configurations that fit the format: the connection stays attached. */
  ghost predicate OnLine(ev: Event) {
    match ev
    case PushEv(ps) => AllFit(ps)
    case TickEv(_, _) => true
    case ConfigureEv(avcc, asc) => FitsConfig(avcc) && FitsConfig(asc)
    case ResyncEv => true
    case _ => false
  }

  ghost predicate AllOnLine(events: seq<Event>) {
    forall i :: 0 <= i < |events| ==> OnLine(events[i])
  }

  /** The healthy ticks of a run that announce. */
  function Announcements(w: World, events: seq<Event>): nat
    decreases |events|
  {
    if events == [] then 0
    else
      (if events[0].TickEv? && events[0].healthy && Announces(w.engine) then 1 else 0)
      + Announcements(Next(w, events[0]), events[1..])
  }

  lemma StepAnnounces(w: World, ev: Event)
    requires TimelineSound(w) && Fitting(w.engine) && w.engine.muxer.Some? && OnLine(ev)
    ensures var n := Next(w, ev).engine;
      && n.muxer.Some?
      && Announced(n) == Announced(w.engine) + if ev.TickEv? && ev.healthy && Announces(w.engine) then 1 else 0
  {
    hide Tick, TickSent, TickDrops, PushSeq, PushDrops, PolicyDrops, EnforceDropPolicy, InitCodecs, TagsOf,
         Announces, Fits, FitsConfig, Ordered, Marked, Intact, CutDrops, BeforeLastKey, ScriptsOf;
    match ev
    case PushEv(_) =>
    case ResyncEv =>
    case TickEv(healthy, flushes) =>
      TickStaysOn(w.engine, healthy, flushes);
      if healthy {
        TickAnnounces(w.engine, flushes);
      }
    case ConfigureEv(avcc, asc) => CodecsAddNone(w.engine.muxer.value, avcc, asc);
  }

  lemma TickStaysOn(e: Engine, healthy: bool, flushes: bool)
    requires e.muxer.Some?
    ensures Tick(e, healthy, flushes).0.muxer.Some? && (!healthy ==> Tick(e, healthy, flushes).0 == e)
  {
    hide SendBatch, Batch, Drained;
  }

  /** Over any run of one connection the metadata tags shown are the announcing ticks. */
  lemma {:induction false} RunAnnounces(w: World, events: seq<Event>)
    requires TimelineSound(w) && Fitting(w.engine) && w.engine.muxer.Some? && AllOnLine(events)
    ensures Announced(Run(w, events).engine) == Announced(w.engine) + Announcements(w, events)
    decreases |events|
  {
    hide Next, TimelineSound, Fitting, OnLine, Announced, Announces;
    if events != [] {
      assert OnLine(events[0]);
      StepAnnounces(w, events[0]);
      OnLineIsOrderly(w, events[0]);
      StepSound(w, events[0]);
      assert forall i :: 0 <= i < |events[1..]| ==> events[1..][i] == events[i + 1];
      RunAnnounces(Next(w, events[0]), events[1..]);
    }
  }

  lemma OnLineIsOrderly(w: World, ev: Event)
    requires OnLine(ev)
    ensures Orderly(w, ev)
  {
  }

  /**
    Two ticks on a fresh connection show the metadata twice exactly when the first one fails and, after
    it, the transport still has room for the tag.
   */
  lemma MetadataAgain(w: World, room: nat, f: bool, g: bool)
    requires TimelineSound(w) && Fitting(w.engine) && w.engine.muxer.None?
    ensures var a := Next(w, AttachEv(room));
      var b := Next(a, TickEv(true, f));
      Announced(Next(b, TickEv(true, g)).engine) == 2 <==>
        && !Tick(a.engine, true, f).1.Muxed?
        && HeaderBytes(b.engine.muxer.value) + 11 + |w.engine.meta| <= Room(b.engine.muxer.value.sink)
  {
    hide Tick, TickSent, TickDrops, TimelineSound, Fitting, Announced, Room;
    var a := Next(w, AttachEv(room));
    var b := Next(a, TickEv(true, f));
    StepSound(w, AttachEv(room));
    StepSound(a, TickEv(true, f));
    StepAnnounces(a, TickEv(true, f));
    StepAnnounces(b, TickEv(true, g));
    AttachedQuiet(w, room);
    IntactWhenSound(a);
    TickAnnounces(a.engine, f);
    if !Announces(a.engine) {
      NoRoomDies(a.engine, f);
    }
    TickKeepsMeta(a, f);
  }

  lemma AttachedQuiet(w: World, room: nat)
    ensures var e := Next(w, AttachEv(room)).engine;
      e.muxer.Some? && !e.metadataWritten && e.meta == w.engine.meta && Announced(e) == 0
  {
    NoBytesNoTags();
  }

  lemma IntactWhenSound(w: World)
    requires TimelineSound(w) && w.engine.muxer.Some?
    ensures Intact(w.engine.muxer.value)
  {
    hide Intact, Ordered, Marked, TagsOf;
  }

  lemma TickKeepsMeta(w: World, flushes: bool)
    ensures Next(w, TickEv(true, flushes)).engine.meta == w.engine.meta
    ensures Next(w, TickEv(true, flushes)).engine == Tick(w.engine, true, flushes).0
  {
    hide SendBatch, Kept, SortByDts, Orphans, HasKeyframe, TickSent, TickDrops;
  }

  /** A tick that finds no room for a metadata tag it owes leaves room for nothing. */
  lemma NoRoomDies(e: Engine, flushes: bool)
    requires e.muxer.Some? && !e.metadataWritten && !Announces(e)
    ensures Room(Tick(e, true, flushes).0.muxer.value.sink) == 0
  {
    hide WriteMetadata, InitCodecs, Batch, Orphans, HasKeyframe;
    MetadataRoom(e.muxer.value, e.meta);
    DeadFails(e.muxer.value, e.meta);
  }

  // ---------------------------------------------------------------------------------
  // From a new engine
  // ---------------------------------------------------------------------------------

  /** An audio packet without a header of its own waits, and no audio configuration is known. */
  ghost predicate Unconfigured(e: Engine, p: MediaPacket) {
    && e.buffer.queue == [p] && p.kind == Audio && AdtsToAsc(p.data).None?
    && e.avcc.None? && e.asc.None? && !e.metadataWritten
    && e.muxer.Some? && !e.muxer.value.audioSeq
  }

  /** Its tick fails, whatever the transport; after a metadata tag that found room the transport lives on. */
  lemma UnconfiguredFails(e: Engine, p: MediaPacket, flushes: bool)
    requires Unconfigured(e, p) && HeaderBytes(e.muxer.value) + TAG_OVERHEAD + |e.meta| <= Room(e.muxer.value.sink)
    ensures var n := Tick(e, true, flushes).0;
      && Unconfigured(n, p) && n.muxer.value.header && n.meta == e.meta
      && Room(n.muxer.value.sink) == Room(e.muxer.value.sink) - HeaderBytes(e.muxer.value) - TAG_OVERHEAD - |e.meta|
  {
    hide WriteMetadata, WriteOrRebase, Room, AdtsToAsc, FILE_HEADER, HeaderBytes;
    var m := e.muxer.value;
    OneKept(p, e.awaitingKeyframe);
    MetadataRoom(m, e.meta);
    UnknownFails(WriteMetadata(m, e.meta).0, p);
    assert [p][0..] == [p] && [p] + [] == [p];
  }

  lemma UnknownFails(m: Mux, p: MediaPacket)
    requires p.kind == Audio && AdtsToAsc(p.data).None? && m.header && !m.audioSeq
    ensures WriteOrRebase(m, p) == (m, Config)
  {
    hide AdtsToAsc, WriteMedia;
  }

  /** Two failing ticks with room for both tags: the peer sees the metadata twice. */
  lemma MetadataTwice(profile: LatencyProfile, meta: bytes, p: MediaPacket, room: nat, f: bool, g: bool)
    requires |meta| < TWO_24 && Fits(p) && p.kind == Audio && AdtsToAsc(p.data).None?
    requires 13 + 2 * (TAG_OVERHEAD + |meta|) <= room
    ensures var w := Next(NewWorld(profile, meta), PushEv([p]));
      var n := Next(Next(Next(w, AttachEv(room)), TickEv(true, f)), TickEv(true, g));
      Announced(n.engine) == 2 && n.engine.buffer.queue == [p]
  {
    hide Next, Announced, Tick, Room, Fits, AdtsToAsc, TimelineSound, Fitting, HeaderBytes;
    var w := Next(NewWorld(profile, meta), PushEv([p]));
    var a := Next(w, AttachEv(room));
    var b := Next(a, TickEv(true, f));
    OneWaits(profile, meta, p, room);
    HeaderLength();
    FreshHeaderBytes(room);
    UnconfiguredFails(a.engine, p, f);
    TickKeepsMeta(a, f);
    LineHeaderBytes(b.engine.muxer.value);
    UnconfiguredFails(b.engine, p, g);
    TickKeepsMeta(b, g);
    TickAnnouncesNot(a.engine, f, p);
    MetadataAgain(w, room, f, g);
  }

  lemma OneWaits(profile: LatencyProfile, meta: bytes, p: MediaPacket, room: nat)
    requires |meta| < TWO_24 && Fits(p) && p.kind == Audio && AdtsToAsc(p.data).None?
    ensures var w := Next(NewWorld(profile, meta), PushEv([p]));
      var e := Next(w, AttachEv(room)).engine;
      && TimelineSound(w) && Fitting(w.engine) && w.engine.muxer.None? && w.engine.meta == meta
      && Unconfigured(e, p) && e.meta == meta && e.muxer == Some(NewMux(Sink([], room, false)))
  {
    hide PushDrops, PolicyDrops, Fits, AdtsToAsc, TagsOf;
    var b := NewEngine(profile, meta).buffer;
    NothingOrdered();
    assert [p][1..] == [] && [] + [p] == [p];
    assert PushSeq(b, [p]).queue == [p];
  }

  lemma FreshHeaderBytes(room: nat)
    ensures var m := NewMux(Sink([], room, false)); HeaderBytes(m) == |FILE_HEADER| && Room(m.sink) == room
  {
  }

  lemma LineHeaderBytes(m: Mux)
    ensures m.header ==> HeaderBytes(m) == 0
  {
  }

  lemma TickAnnouncesNot(e: Engine, flushes: bool, p: MediaPacket)
    requires e.muxer.Some? && Tick(e, true, flushes).0.buffer.queue == [p]
    ensures !Tick(e, true, flushes).1.Muxed?
  {
    hide Preamble, Send, Batch, Orphans, HasKeyframe;
  }
}
