/** Where the segmenter cuts: normalized time, the span of segments, and what opens them. */
module HlsCuts {
  import opened Bytes
  import opened Media
  import opened Segmenter
  import opened HlsRuns

  // ---------------------------------------------------------------------------------
  // The stream clock
  // ---------------------------------------------------------------------------------

  predicate Ticking(c: Clock) {
    c.origin.Some? == c.last.Some? && (c.last.Some? ==> c.last.value >= 0)
  }

  function Times(c: Clock, raw: seq<int>): seq<int>
    decreases |raw|
  {
    if raw == [] then [] else [Normalize(c, raw[0]).1] + Times(Normalize(c, raw[0]).0, raw[1..])
  }

  lemma NormalizeStep(c: Clock, dts: int)
    requires Ticking(c)
    ensures var (d, ts) := Normalize(c, dts);
      && Ticking(d) && d.last == Some(ts)
      && (if c.last.None? then ts == 0 else ts == Max(c.last.value, dts - c.origin.value))
  {
  }

  /** Normalized times start at 0 (so are never negative) and never go back, whatever the input does. */
  lemma {:induction false} TimesOrdered(c: Clock, raw: seq<int>)
    requires Ticking(c)
    ensures var ts := Times(c, raw);
      && |ts| == |raw|
      && (raw != [] && c.last.None? ==> ts[0] == 0)
      && (forall i :: 0 <= i < |ts| ==> ts[i] >= 0 && (c.last.Some? ==> ts[i] >= c.last.value))
      && (forall i, j :: 0 <= i < j < |ts| ==> ts[i] <= ts[j])
    decreases |raw|
  {
    hide Normalize;
    if raw != [] {
      NormalizeStep(c, raw[0]);
      TimesOrdered(Normalize(c, raw[0]).0, raw[1..]);
    }
  }

  // ---------------------------------------------------------------------------------
  // Every packet step has one of two shapes
  // ---------------------------------------------------------------------------------

  /** Close the open segment when `cut`, then append one sample. */
  function Take(h: Hls, cut: bool, kind: MediaKind, s: Pending): Hls {
    var u := if cut then CloseSegment(h) else h;
    if kind == Video then PushVideo(u, s) else PushAudio(u, s)
  }

  /** The state after the configuration was looked at. */
  function Seen(h: Hls, p: MediaPacket): Hls {
    if p.kind == Video then SeeVideo(h, p) else SeeAudio(h, p)
  }

  /** An accepted packet before it is appended: the stream has started and the clock has moved. */
  function Clocked(h: Hls, p: MediaPacket): Hls {
    var s := Seen(h, p);
    s.(started := true, clock := Normalize(s.clock, p.dts).0)
  }

  /** A keyframe cuts a segment that spans the target; audio cuts only while no video was ever seen. */
  function Cuts(h: Hls, p: MediaPacket): bool {
    var t := Clocked(h, p);
    (if p.kind == Video then p.isKey else !t.sawVideo) && HasSamples(t) && SpanMs(t) >= TargetMs(t)
  }

  function SampleOf(h: Hls, p: MediaPacket): Pending {
    var dts := Normalize(Seen(h, p).clock, p.dts).1;
    if p.kind == Video then Pending(VideoPayload(p), dts, p.pts - p.dts, p.isKey)
    else Pending(StripAdts(p.data), dts, 0, true)
  }

  lemma PacketShape(h: Hls, p: MediaPacket)
    requires !h.finished
    ensures PutPacket(h, p)
         == if Accepts(h, Packet(p)) then Take(Clocked(h, p), Cuts(h, p), p.kind, SampleOf(h, p)) else Seen(h, p)
  {
    hide CloseSegment, Normalize, VideoPayload, StripAdts, SpanMs;
  }

  lemma SeenEffect(h: Hls, p: MediaPacket)
    ensures var s := Seen(h, p);
      s == h.(sawVideo := h.sawVideo || p.kind == Video, avcc := s.avcc, audio := s.audio)
    ensures h.audio.Some? ==> Seen(h, p).audio == h.audio
    ensures h.avcc.Some? ==> Seen(h, p).avcc == h.avcc
  {
    hide AnnexBToAvcc, AdtsToAsc, ParseAudioParams;
  }

  // ---------------------------------------------------------------------------------
  // Pending samples follow the clock
  // ---------------------------------------------------------------------------------

  predicate Sorted(samples: seq<Pending>) {
    forall i, j :: 0 <= i < j < |samples| ==> samples[i].dts <= samples[j].dts
  }

  predicate Within(samples: seq<Pending>, last: Option<int>) {
    samples != [] ==> last.Some? && forall i :: 0 <= i < |samples| ==> 0 <= samples[i].dts <= last.value
  }

  /** The earliest sample of either track. */
  function Start(video: seq<Pending>, sound: seq<Pending>): int
    requires video != [] || sound != []
  {
    if video == [] then sound[0].dts
    else if sound == [] then video[0].dts
    else Min(video[0].dts, sound[0].dts)
  }

  predicate Orderly(h: Hls) {
    && Ticking(h.clock)
    && Sorted(h.video) && Sorted(h.sound)
    && Within(h.video, h.clock.last) && Within(h.sound, h.clock.last)
    && h.segStart == (if HasSamples(h) then Some(Start(h.video, h.sound)) else None)
  }

  lemma ClockedOrderly(h: Hls, p: MediaPacket)
    requires Orderly(h)
    ensures Orderly(Clocked(h, p)) && Clocked(h, p).clock.last == Some(SampleOf(h, p).dts)
  {
    hide Normalize, VideoPayload, StripAdts, SeeVideo, SeeAudio;
    SeenEffect(h, p);
    NormalizeStep(h.clock, p.dts);
  }

  lemma CloseOrderly(h: Hls)
    requires Orderly(h)
    ensures Orderly(CloseSegment(h)) && CloseSegment(h).clock == h.clock
  {
    hide CloseSegment, Fragments, DurationMs, EndOf;
    if HasSamples(h) { CloseEffect(h); } else { NothingToClose(h); }
  }

  lemma SnocSorted(samples: seq<Pending>, s: Pending)
    requires Sorted(samples) && Within(samples, Some(s.dts)) && s.dts >= 0
    ensures Sorted(samples + [s]) && Within(samples + [s], Some(s.dts))
  {
  }

  lemma SnocStart(video: seq<Pending>, sound: seq<Pending>, s: Pending)
    requires Within(video, Some(s.dts)) && Within(sound, Some(s.dts))
    ensures var start := if video == [] && sound == [] then s.dts else Start(video, sound);
            Start(video + [s], sound) == start && Start(video, sound + [s]) == start
  {
  }

  lemma PushOrderly(h: Hls, kind: MediaKind, s: Pending)
    requires Orderly(h) && h.clock.last == Some(s.dts)
    ensures Orderly(if kind == Video then PushVideo(h, s) else PushAudio(h, s))
  {
    hide Sorted, Within, Start;
    SnocSorted(h.video, s);
    SnocSorted(h.sound, s);
    SnocStart(h.video, h.sound, s);
  }

  lemma TakeOrderly(h: Hls, cut: bool, kind: MediaKind, s: Pending)
    requires Orderly(h) && h.clock.last == Some(s.dts)
    ensures Orderly(Take(h, cut, kind, s))
  {
    hide CloseSegment, Orderly, PushVideo, PushAudio;
    CloseOrderly(h);
    PushOrderly(if cut then CloseSegment(h) else h, kind, s);
  }

  lemma CallOrderly(h: Hls, c: Call)
    requires Orderly(h)
    ensures Orderly(Do(h, c))
  {
    hide CloseSegment, MakePlaylist, PutPacket, Clocked, Take, Seen, SampleOf, Cuts;
    match c
    case Codecs(_, _) =>
    case FinishCall => CloseOrderly(h.(finished := true));
    case Packet(p) =>
      if h.finished {
        Ignored(h, p);
      } else {
        PacketShape(h, p);
        SeenEffect(h, p);
        ClockedOrderly(h, p);
        TakeOrderly(Clocked(h, p), Cuts(h, p), p.kind, SampleOf(h, p));
      }
  }

  // ---------------------------------------------------------------------------------
  // Segments span the target and open on keyframes
  // ---------------------------------------------------------------------------------

  predicate Reaches(w: Written, targetMs: nat) {
    (w.video != [] || w.audio != []) && Span(w.video, w.audio, Start(w.video, w.audio)) >= targetMs
  }

  /** All segments but the one that finishing closed. */
  ghost predicate Spanning(h: Hls) {
    forall k :: 0 <= k < |h.written| - (if h.finished then 1 else 0) ==> Reaches(h.written[k], TargetMs(h))
  }

  /** A segment whose first sample, across both tracks, is a sync sample of the video track. */
  predicate OpensOnKey(video: seq<Pending>, sound: seq<Pending>) {
    video != [] && video[0].isSync && (sound != [] ==> video[0].dts <= sound[0].dts)
  }

  /** From the `n`th segment on, everything written and whatever is pending opens on a keyframe. */
  ghost predicate KeyedFrom(n: nat, h: Hls) {
    && h.sawVideo && |h.written| == h.sequence
    && (forall k :: n <= k < |h.written| ==> OpensOnKey(h.written[k].video, h.written[k].audio))
    && (h.sequence >= n ==> if HasSamples(h) then OpensOnKey(h.video, h.sound) else h.finished || !h.started)
  }

  lemma CloseSpanning(h: Hls)
    requires Orderly(h) && Spanning(h) && !h.finished && (HasSamples(h) ==> SpanMs(h) >= TargetMs(h))
    ensures Spanning(CloseSegment(h)) && TargetMs(CloseSegment(h)) == TargetMs(h) && !CloseSegment(h).finished
  {
    hide CloseSegment, Fragments, DurationMs, EndOf, Span, Start;
    if HasSamples(h) { CloseEffect(h); } else { NothingToClose(h); }
  }

  lemma CallSpanning(h: Hls, c: Call)
    requires Orderly(h) && Spanning(h)
    ensures Spanning(Do(h, c))
  {
    hide CloseSegment, MakePlaylist, PutPacket, Reaches, Fragments, DurationMs, EndOf, Clocked, Orderly, SampleOf;
    match c
    case Codecs(_, _) =>
    case FinishCall =>
      var f := h.(finished := true);
      if HasSamples(f) { CloseEffect(f); } else { NothingToClose(f); }
    case Packet(p) =>
      if h.finished {
        Ignored(h, p);
      } else {
        PacketShape(h, p);
        SeenEffect(h, p);
        ClockedOrderly(h, p);
        ClockedKeeps(h, p);
        if Cuts(h, p) {
          CloseSpanning(Clocked(h, p));
        }
      }
  }

  lemma ClockedKeeps(h: Hls, p: MediaPacket)
    ensures var t := Clocked(h, p);
      t == h.(started := true, clock := t.clock, sawVideo := h.sawVideo || p.kind == Video, avcc := t.avcc,
          audio := t.audio)
  {
    hide Seen, Normalize;
    SeenEffect(h, p);
  }

  lemma OpenedByKey(h: Hls, s: Pending)
    requires !HasSamples(h) && s.isSync
    ensures OpensOnKey(PushVideo(h, s).video, PushVideo(h, s).sound)
  {
  }

  lemma StaysOpened(h: Hls, kind: MediaKind, s: Pending)
    requires Orderly(h) && h.clock.last == Some(s.dts) && HasSamples(h) && OpensOnKey(h.video, h.sound)
    ensures var u := if kind == Video then PushVideo(h, s) else PushAudio(h, s);
            OpensOnKey(u.video, u.sound)
  {
  }

  /** Closing keeps the claim on what is written; the next sample must open the new segment. */
  lemma CloseKeyed(n: nat, h: Hls)
    requires KeyedFrom(n, h) && HasSamples(h)
    ensures var c := CloseSegment(h);
      && c.sawVideo && |c.written| == c.sequence && !HasSamples(c)
      && (forall k :: n <= k < |c.written| ==> OpensOnKey(c.written[k].video, c.written[k].audio))
  {
    hide CloseSegment, Fragments, DurationMs, EndOf, OpensOnKey;
    CloseEffect(h);
  }

  lemma AcceptedKeyed(n: nat, h: Hls, p: MediaPacket)
    requires Orderly(h) && KeyedFrom(n, h) && Accepts(h, Packet(p))
    ensures KeyedFrom(n, Take(Clocked(h, p), Cuts(h, p), p.kind, SampleOf(h, p)))
  {
    hide CloseSegment, OpensOnKey, Normalize, SpanMs, VideoPayload, StripAdts, Orderly;
    var t, s := Clocked(h, p), SampleOf(h, p);
    ClockedKeeps(h, p);
    ClockedOrderly(h, p);
    if Cuts(h, p) {
      CloseKeyed(n, t);
      OpenedByKey(CloseSegment(t), s);
    } else if HasSamples(t) {
      if h.sequence >= n {
        StaysOpened(t, p.kind, s);
      }
    } else if h.sequence >= n {
      OpenedByKey(t, s);
    }
  }

  lemma CallKeyed(n: nat, h: Hls, c: Call)
    requires Orderly(h) && KeyedFrom(n, h)
    ensures KeyedFrom(n, Do(h, c))
  {
    hide CloseSegment, MakePlaylist, PutPacket, OpensOnKey, Clocked, Orderly, SampleOf, Seen, Accepts, Cuts, Take;
    match c
    case Codecs(_, _) =>
    case FinishCall =>
      var f := h.(finished := true);
      if HasSamples(f) { CloseKeyed(n, f); FinishedStays(f); } else { NothingToClose(f); }
    case Packet(p) =>
      if h.finished {
        Ignored(h, p);
      } else {
        PacketShape(h, p);
        SeenEffect(h, p);
        if Accepts(h, c) {
          AcceptedKeyed(n, h, p);
        }
      }
  }

  lemma FinishedStays(h: Hls)
    requires HasSamples(h)
    ensures CloseSegment(h).finished == h.finished
  {
    hide CloseSegment, Fragments, DurationMs, EndOf;
    CloseEffect(h);
  }

  // ---------------------------------------------------------------------------------
  // Over runs
  // ---------------------------------------------------------------------------------

  lemma {:induction false} RunOrderly(h: Hls, calls: seq<Call>)
    requires Orderly(h) && Spanning(h)
    ensures Orderly(DoAll(h, calls)) && Spanning(DoAll(h, calls))
    decreases |calls|
  {
    hide Do, Orderly, Spanning;
    if calls != [] {
      CallOrderly(h, calls[0]);
      CallSpanning(h, calls[0]);
      RunOrderly(Do(h, calls[0]), calls[1..]);
    }
  }

  lemma {:induction false} RunKeyed(n: nat, h: Hls, calls: seq<Call>)
    requires Orderly(h) && KeyedFrom(n, h)
    ensures KeyedFrom(n, DoAll(h, calls))
    decreases |calls|
  {
    hide Do, Orderly, KeyedFrom;
    if calls != [] {
      CallOrderly(h, calls[0]);
      CallKeyed(n, h, calls[0]);
      RunKeyed(n, Do(h, calls[0]), calls[1..]);
    }
  }

  /** Reached by some run from a new segmenter. */
  ghost predicate Reachable(h: Hls) {
    exists t: nat, w: nat, calls: seq<Call> :: h == DoAll(NewHls(t, w), calls)
  }

  lemma ReachableOrderly(h: Hls)
    requires Reachable(h)
    ensures Orderly(h) && Spanning(h)
  {
    hide DoAll;
    var t: nat, w: nat, calls: seq<Call> :| h == DoAll(NewHls(t, w), calls);
    RunOrderly(NewHls(t, w), calls);
  }

  predicate Counted(h: Hls) {
    |h.written| == h.sequence && (!h.started ==> !HasSamples(h))
  }

  lemma CloseCounted(h: Hls)
    requires Counted(h)
    ensures Counted(CloseSegment(h)) && CloseSegment(h).started == h.started
  {
    hide CloseSegment, Fragments, DurationMs, EndOf;
    if HasSamples(h) { CloseEffect(h); } else { NothingToClose(h); }
  }

  lemma CallCounted(h: Hls, c: Call)
    requires Counted(h)
    ensures Counted(Do(h, c))
  {
    hide CloseSegment, MakePlaylist, PutPacket, Clocked, SampleOf, Seen, Accepts, Cuts;
    match c
    case Codecs(_, _) =>
    case FinishCall => CloseCounted(h.(finished := true));
    case Packet(p) =>
      if h.finished {
        Ignored(h, p);
      } else {
        PacketShape(h, p);
        SeenEffect(h, p);
        ClockedKeeps(h, p);
        CloseCounted(Clocked(h, p));
      }
  }

  lemma {:induction false} RunCounted(h: Hls, calls: seq<Call>)
    requires Counted(h)
    ensures Counted(DoAll(h, calls))
    decreases |calls|
  {
    hide Do, Counted;
    if calls != [] {
      CallCounted(h, calls[0]);
      RunCounted(Do(h, calls[0]), calls[1..]);
    }
  }

  lemma ReachableCounted(h: Hls)
    requires Reachable(h)
    ensures Counted(h)
  {
    hide DoAll;
    var t: nat, w: nat, calls: seq<Call> :| h == DoAll(NewHls(t, w), calls);
    RunCounted(NewHls(t, w), calls);
  }

  /** Every segment but the one that finishing closed spans the target duration. */
  lemma SegmentsSpanTarget(h: Hls, k: nat)
    requires Reachable(h) && k < |h.written| && (h.finished ==> k < |h.written| - 1)
    ensures Reaches(h.written[k], TargetMs(h))
  {
    hide Reachable, Orderly, Reaches;
    ReachableOrderly(h);
  }

  /**
    Once video was seen, every segment opened by a later cut begins with a sync sample of the video
    track; when video came before the stream started, so does the first segment.
   */
  lemma CutsOpenOnKeyframes(h: Hls, calls: seq<Call>, k: nat)
    requires Reachable(h) && h.sawVideo && k < |DoAll(h, calls).written|
    requires k > h.sequence || (!h.started && k >= h.sequence)
    ensures var w := DoAll(h, calls).written[k]; OpensOnKey(w.video, w.audio)
  {
    hide Reachable, DoAll, OpensOnKey, Orderly, Spanning;
    ReachableOrderly(h);
    ReachableCounted(h);
    var n := if h.started then h.sequence + 1 else h.sequence;
    assert KeyedFrom(n, h);
    RunKeyed(n, h, calls);
  }
}
