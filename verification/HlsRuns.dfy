/**
  Whole runs of the segmenter: what is written refines what was accepted, where cuts fall, and how
  the playlist window mirrors the stored files.
 */
module HlsRuns {
  import opened Bytes
  import opened Media
  import opened Segmenter
  import Mp4
  import H264

  // ---------------------------------------------------------------------------------
  // What closing a segment does to each field
  // ---------------------------------------------------------------------------------

  lemma {:induction false} SlideEffect(h: Hls, limit: nat)
    ensures var s := Slide(h, limit);
      && s == h.(window := s.window, store := h.store.(segments := s.store.segments))
      && s.window == h.window[Max(|h.window| - limit, 0)..]
      && (forall n :: n in s.store.segments.Keys ==>
            n in h.store.segments.Keys && s.store.segments[n] == h.store.segments[n])
      && (forall n :: n in h.store.segments.Keys ==>
            (n in s.store.segments.Keys <==> forall i :: 0 <= i < |h.window| - limit ==> h.window[i].number != n))
    decreases |h.window|
  {
    if |h.window| > limit {
      var gone := h.window[0].number;
      var t := h.(window := h.window[1..], store := h.store.(segments := h.store.segments - {gone}));
      SlideEffect(t, limit);
      var s := Slide(h, limit);
      forall n | n in h.store.segments.Keys
        ensures n in s.store.segments.Keys <==> forall i :: 0 <= i < |h.window| - limit ==> h.window[i].number != n
      {
        if n != gone {
          assert forall i :: 0 <= i < |t.window| ==> t.window[i] == h.window[i + 1];
          assert forall i :: 0 < i < |h.window| ==> h.window[i] == t.window[i - 1];
        }
      }
    }
  }

  /** Everything but the window and the storage. */
  lemma CloseEffect(h: Hls)
    requires HasSamples(h)
    ensures var c := CloseSegment(h);
      c == h.(initWritten := true,
              initHasVideo := if h.initWritten then h.initHasVideo else h.avcc.Some?,
              initHasAudio := if h.initWritten then h.initHasAudio else h.audio.Some?,
              video := [], sound := [], segStart := None,
              videoNext := if h.video == [] then h.videoNext else Some(EndOf(VideoFragment(h))),
              audioNext := if h.sound == [] then h.audioNext else Some(EndOf(AudioFragment(h))),
              sequence := h.sequence + 1, maxMs := Max(h.maxMs, DurationMs(h)),
              written := h.written + [Written(h.video, h.sound, Fragments(h))],
              window := c.window, store := c.store)
  {
    hide Slide, MakePlaylist, DurationMs, VideoSamples, AudioSamples, TotalTicks, Mp4.Segment;
    SlideEffect(Seal(EnsureInit(h)), Max(h.windowSize, 1));
    SealAfterInit(h);
  }

  lemma SealAfterInit(h: Hls)
    ensures Fragments(EnsureInit(h)) == Fragments(h) && DurationMs(EnsureInit(h)) == DurationMs(h)
    ensures h.video != [] ==> VideoFragment(EnsureInit(h)) == VideoFragment(h)
    ensures h.sound != [] ==> AudioFragment(EnsureInit(h)) == AudioFragment(h)
  {
  }

  // ---------------------------------------------------------------------------------
  // The output refines the accepted packets
  // ---------------------------------------------------------------------------------

  /** What a player gets of one sample besides its time: sync bit and dependence are in its flags. */
  datatype Coded = Coded(payload: bytes, isSync: bool, dependsOn: nat, offset: int)

  function CodedSample(s: Mp4.Sample): Coded {
    Coded(s.payload, s.flags / 0x1_0000 % 2 == 0, s.flags / 0x100_0000 % 4, s.offset)
  }

  function CodedSamples(samples: seq<Mp4.Sample>): seq<Coded> {
    seq(|samples|, i requires 0 <= i < |samples| => CodedSample(samples[i]))
  }

  /** The number that 32 bits keep of `n`, read as signed. */
  function Signed32(n: int): (r: int)
    ensures -0x8000_0000 <= r < 0x8000_0000 && (n - r) % TWO_32 == 0
  {
    var low := n % TWO_32;
    SignedBack(n);
    if low < 0x8000_0000 then low else low - TWO_32
  }

  lemma SignedBack(n: int)
    ensures (n - n % TWO_32) % TWO_32 == 0 && (n - (n % TWO_32 - TWO_32)) % TWO_32 == 0
  {
    var k := n / TWO_32;
    assert n - n % TWO_32 == k * TWO_32 && n - (n % TWO_32 - TWO_32) == (k + 1) * TWO_32;
    Multiple(k);
    Multiple(k + 1);
  }

  lemma Multiple(k: int)
    ensures k * TWO_32 % TWO_32 == 0
  {
  }

  /** A frame of a track as it must come out: only keyframes are sync samples, and these depend on no other. */
  function VideoCoded(payload: bytes, isKey: bool, cts: int): Coded {
    Coded(payload, isKey, if isKey then 2 else 1, Signed32(90 * cts))
  }

  function AudioCoded(payload: bytes): Coded {
    Coded(payload, true, 2, 0)
  }

  function CodedPending(samples: seq<Pending>, track: nat): seq<Coded> {
    seq(|samples|, i requires 0 <= i < |samples| =>
      if track == VIDEO_TRACK_ID then VideoCoded(samples[i].payload, samples[i].isSync, samples[i].cts)
      else AudioCoded(samples[i].payload))
  }

  function TrackOf(frags: seq<Mp4.Fragment>, track: nat): seq<Coded> {
    if frags == [] then []
    else (if frags[0].trackId == track then CodedSamples(frags[0].samples) else []) + TrackOf(frags[1..], track)
  }

  /** All samples of a track over the written segments, in order. */
  function Released(written: seq<Written>, track: nat): seq<Coded> {
    if written == [] then []
    else Released(written[..|written| - 1], track) + TrackOf(written[|written| - 1].frags, track)
  }

  function Waiting(h: Hls, track: nat): seq<Coded> {
    CodedPending(if track == VIDEO_TRACK_ID then h.video else h.sound, track)
  }

  function Output(h: Hls, track: nat): seq<Coded> {
    Released(h.written, track) + Waiting(h, track)
  }

  /** Whether a call is a packet the segmenter takes, by its gates alone. */
  predicate Accepts(h: Hls, c: Call) {
    && c.Packet? && !h.finished
    && (if c.p.kind == Video then TakesVideo(SeeVideo(h, c.p), c.p) else TakesAudio(SeeAudio(h, c.p)))
  }

  function TrackId(kind: MediaKind): nat {
    if kind == Video then VIDEO_TRACK_ID else AUDIO_TRACK_ID
  }

  /** What a packet must become: its payload, its sync flag, and its presentation offset at 90 kHz. */
  function Expected(p: MediaPacket): Coded {
    if p.kind == Video then VideoCoded(H264.Prefixed(H264.Nals(p.data)), p.isKey, p.pts - p.dts)
    else AudioCoded(StripAdts(p.data))
  }

  /** The offset is the distance from decode to presentation at 90 kHz exactly when that fits signed 32 bits. */
  lemma OffsetExact(p: MediaPacket)
    requires p.kind == Video
    ensures var ticks := 90 * (p.pts - p.dts);
      Expected(p).offset == ticks <==> -0x8000_0000 <= ticks < 0x8000_0000
  {
  }

  function Input(h: Hls, calls: seq<Call>, track: nat): seq<Coded>
    decreases |calls|
  {
    if calls == [] then []
    else
      (if Accepts(h, calls[0]) && TrackId(calls[0].p.kind) == track then [Expected(calls[0].p)] else [])
      + Input(Do(h, calls[0]), calls[1..], track)
  }

  predicate ATrack(track: nat) {
    track == VIDEO_TRACK_ID || track == AUDIO_TRACK_ID
  }

  lemma TrackOfEach(f: Mp4.Fragment, g: Mp4.Fragment, track: nat)
    ensures TrackOf([], track) == []
    ensures TrackOf([f], track) == if f.trackId == track then CodedSamples(f.samples) else []
    ensures TrackOf([f, g], track) == TrackOf([f], track) + TrackOf([g], track)
  {
    assert [f][1..] == [] && [g][1..] == [] && [f, g][1..] == [g];
  }

  lemma WrapsSigned(n: int)
    ensures AsI32(n) == Signed32(n)
  {
  }

  lemma FlagBits(dependsOn: nat, isSync: bool)
    requires dependsOn < 4
    ensures var flags := SampleFlags(dependsOn, isSync);
      flags / 0x1_0000 % 2 == (if isSync then 0 else 1) && flags / 0x100_0000 % 4 == dependsOn
  {
  }

  lemma SamplesCoded(samples: seq<Pending>)
    ensures CodedSamples(VideoSamples(samples)) == CodedPending(samples, VIDEO_TRACK_ID)
    ensures CodedSamples(AudioSamples(samples)) == CodedPending(samples, AUDIO_TRACK_ID)
  {
    hide AsI32, VideoTicks, StepMs, SampleFlags, Signed32;
    FlagBits(2, true);
    FlagBits(1, false);
    forall i | 0 <= i < |samples| ensures AsI32(samples[i].cts * 90) == Signed32(90 * samples[i].cts) {
      WrapsSigned(90 * samples[i].cts);
    }
  }

  lemma FragmentsCoded(h: Hls, track: nat)
    requires ATrack(track)
    ensures TrackOf(Fragments(h), track) == Waiting(h, track)
  {
    hide TrackOf, CodedSamples, CodedPending, VideoSamples, AudioSamples, Base, VideoTicks, AudioTicks;
    NothingWaits(track);
    SamplesCoded(h.video);
    SamplesCoded(h.sound);
    var none := Mp4.Fragment(0, 0, []);
    var v := if h.video == [] then none else VideoFragment(h);
    var a := if h.sound == [] then none else AudioFragment(h);
    TrackOfEach(v, a, track);
    TrackOfEach(a, v, track);
    assert [v] + [a] == [v, a] && [v] + [] == [v] && [] + [a] == [a];
  }

  lemma CloseOutput(h: Hls, track: nat)
    requires ATrack(track)
    ensures Output(CloseSegment(h), track) == Output(h, track)
  {
    hide CloseSegment, Fragments, CodedPending, TrackOf;
    if HasSamples(h) {
      CloseEffect(h);
      FragmentsCoded(h, track);
      var more := h.written + [Written(h.video, h.sound, Fragments(h))];
      assert more[..|more| - 1] == h.written;
      NothingWaits(track);
    } else {
      NothingToClose(h);
    }
  }

  lemma NothingWaits(track: nat)
    ensures CodedPending([], track) == []
  {
  }

  lemma NothingToClose(h: Hls)
    requires !HasSamples(h)
    ensures CloseSegment(h) == h
  {
  }

  lemma PushedOutput(samples: seq<Pending>, s: Pending, track: nat)
    ensures CodedPending(samples + [s], track) == CodedPending(samples, track) + CodedPending([s], track)
  {
    hide VideoCoded, AudioCoded;
  }

  lemma CodedOne(p: MediaPacket, dts: int)
    ensures CodedPending([Pending(VideoPayload(p), dts, p.pts - p.dts, p.isKey)], VIDEO_TRACK_ID)
         == [Expected(p.(kind := Video))]
    ensures CodedPending([Pending(StripAdts(p.data), dts, 0, true)], AUDIO_TRACK_ID) == [Expected(p.(kind := Audio))]
  {
    hide Signed32, StripAdts, H264.Prefixed, H264.Nals;
  }

  lemma VideoOutput(h: Hls, p: MediaPacket, track: nat)
    requires ATrack(track) && p.kind == Video && !h.finished
    ensures Output(PutPacket(h, p), track)
         == Output(h, track) + (if Accepts(h, Packet(p)) && track == VIDEO_TRACK_ID then [Expected(p)] else [])
  {
    hide CloseSegment, Released, CodedPending, Expected, VideoPayload, Normalize, SpanMs;
    var s := SeeVideo(h, p);
    if TakesVideo(s, p) {
      var (clock, dts) := Normalize(s.clock, p.dts);
      var t := s.(started := true, clock := clock);
      CloseOutput(t, track);
      var u := if p.isKey && HasSamples(t) && SpanMs(t) >= TargetMs(t) then CloseSegment(t) else t;
      var one := Pending(VideoPayload(p), dts, p.pts - p.dts, p.isKey);
      PushedOutput(u.video, one, VIDEO_TRACK_ID);
      CodedOne(p, dts);
      assert PutPacket(h, p) == PushVideo(u, one);
    }
  }

  lemma AudioOutput(h: Hls, p: MediaPacket, track: nat)
    requires ATrack(track) && p.kind == Audio && !h.finished
    ensures Output(PutPacket(h, p), track)
         == Output(h, track) + (if Accepts(h, Packet(p)) && track == AUDIO_TRACK_ID then [Expected(p)] else [])
  {
    hide CloseSegment, Released, CodedPending, Expected, Normalize, SpanMs, SeeAudio;
    var s := SeeAudio(h, p);
    SeenAudio(h, p);
    if TakesAudio(s) {
      var (clock, dts) := Normalize(s.clock, p.dts);
      var t := s.(started := true, clock := clock);
      CloseOutput(t, track);
      var u := if !t.sawVideo && HasSamples(t) && SpanMs(t) >= TargetMs(t) then CloseSegment(t) else t;
      var one := Pending(StripAdts(p.data), dts, 0, true);
      PushedOutput(u.sound, one, AUDIO_TRACK_ID);
      CodedOne(p, dts);
      assert PutPacket(h, p) == PushAudio(u, one);
    }
  }

  lemma SeenAudio(h: Hls, p: MediaPacket)
    ensures SeeAudio(h, p) == h.(audio := SeeAudio(h, p).audio)
  {
  }

  lemma CallOutput(h: Hls, c: Call, track: nat)
    requires ATrack(track)
    ensures Output(Do(h, c), track)
         == Output(h, track) + (if Accepts(h, c) && TrackId(c.p.kind) == track then [Expected(c.p)] else [])
  {
    hide CloseSegment, Released, CodedPending, Expected, PutPacket, SeeAudio, SeeVideo;
    match c
    case Codecs(_, _) =>
    case FinishCall =>
      if !h.finished {
        CloseOutput(h.(finished := true), track);
      }
    case Packet(p) =>
      if !h.finished {
        if p.kind == Video { VideoOutput(h, p, track); } else { AudioOutput(h, p, track); }
      } else {
        Ignored(h, p);
      }
  }

  lemma Ignored(h: Hls, p: MediaPacket)
    requires h.finished
    ensures PutPacket(h, p) == h
  {
  }

  lemma {:induction false} OutputGrows(h: Hls, calls: seq<Call>, track: nat)
    requires ATrack(track)
    ensures Output(DoAll(h, calls), track) == Output(h, track) + Input(h, calls, track)
    decreases |calls|
  {
    hide Do, Output, Accepts, Expected;
    if calls != [] {
      CallOutput(h, calls[0], track);
      OutputGrows(Do(h, calls[0]), calls[1..], track);
    }
  }

  /** Written segments followed by what still waits are exactly the accepted packets of each track, in order. */
  lemma OutputRefinesInput(targetSecs: nat, windowSize: nat, calls: seq<Call>, track: nat)
    requires ATrack(track)
    ensures var h := NewHls(targetSecs, windowSize);
      Released(DoAll(h, calls).written, track) + Waiting(DoAll(h, calls), track) == Input(h, calls, track)
  {
    hide DoAll, Input;
    OutputGrows(NewHls(targetSecs, windowSize), calls, track);
  }

  lemma FinishEmpties(h: Hls)
    requires !h.finished
    ensures var f := Finish(h); f.video == [] && f.sound == [] && f.finished
  {
    hide CloseSegment, MakePlaylist, Fragments, DurationMs;
    var g := h.(finished := true);
    if HasSamples(g) {
      CloseEffect(g);
    } else {
      NothingToClose(g);
    }
  }

  /** A finish leaves nothing waiting: everything that was accepted is in a written segment. */
  lemma FinishReleases(targetSecs: nat, windowSize: nat, calls: seq<Call>, track: nat)
    requires ATrack(track) && !DoAll(NewHls(targetSecs, windowSize), calls).finished
    ensures var h := DoAll(NewHls(targetSecs, windowSize), calls);
      Released(Finish(h).written, track) == Input(NewHls(targetSecs, windowSize), calls, track)
  {
    hide DoAll, Input, Released, Finish;
    var h := DoAll(NewHls(targetSecs, windowSize), calls);
    OutputRefinesInput(targetSecs, windowSize, calls, track);
    CallOutput(h, FinishCall, track);
    FinishEmpties(h);
    NothingWaits(track);
    assert Released(Finish(h).written, track) + [] == Released(Finish(h).written, track);
    assert Output(h, track) + [] == Output(h, track);
  }

  // ---------------------------------------------------------------------------------
  // The init segment always has a track
  // ---------------------------------------------------------------------------------

  /** What waits has its configuration, and an init segment has a track. */
  predicate Configured(h: Hls) {
    && (h.video != [] ==> h.avcc.Some?) && (h.sound != [] ==> h.audio.Some?)
    && (h.initWritten ==> h.initHasVideo || h.initHasAudio)
  }

  lemma CloseConfigured(h: Hls)
    requires Configured(h)
    ensures Configured(CloseSegment(h)) && CloseSegment(h).avcc == h.avcc && CloseSegment(h).audio == h.audio
  {
    hide CloseSegment, DurationMs, Fragments;
    if HasSamples(h) {
      CloseEffect(h);
    } else {
      NothingToClose(h);
    }
  }

  lemma VideoConfigured(h: Hls, p: MediaPacket)
    requires Configured(h)
    ensures Configured(VideoPacket(h, p))
  {
    hide CloseSegment, SpanMs, Normalize, VideoPayload, AnnexBToAvcc;
    var s := SeeVideo(h, p);
    CloseConfigured(s.(started := true, clock := Normalize(s.clock, p.dts).0));
  }

  lemma AudioConfigured(h: Hls, p: MediaPacket)
    requires Configured(h)
    ensures Configured(AudioPacket(h, p))
  {
    hide CloseSegment, SpanMs, Normalize, StripAdts, ParseAudioParams, AdtsToAsc;
    var s := SeeAudio(h, p);
    CloseConfigured(s.(started := true, clock := Normalize(s.clock, p.dts).0));
  }

  lemma CallConfigured(h: Hls, c: Call)
    requires Configured(h)
    ensures Configured(Do(h, c))
  {
    hide CloseSegment, VideoPacket, AudioPacket, ParseAudioParams, MakePlaylist;
    match c
    case Codecs(_, _) =>
    case FinishCall => CloseConfigured(h.(finished := true));
    case Packet(p) =>
      VideoConfigured(h, p);
      AudioConfigured(h, p);
  }

  lemma {:induction false} RunConfigured(h: Hls, calls: seq<Call>)
    requires Configured(h)
    ensures Configured(DoAll(h, calls))
    decreases |calls|
  {
    hide Do, Configured;
    if calls != [] {
      CallConfigured(h, calls[0]);
      RunConfigured(Do(h, calls[0]), calls[1..]);
    }
  }

  /**
    Whenever there is something to close, a track is configured: over no run does the init segment
    meet the refusal for having no configuration at all, and none is written without a track.
   */
  lemma InitHasTrack(targetSecs: nat, windowSize: nat, calls: seq<Call>)
    ensures var h := DoAll(NewHls(targetSecs, windowSize), calls);
      && (HasSamples(h) ==> h.avcc.Some? || h.audio.Some?)
      && (h.initWritten ==> h.initHasVideo || h.initHasAudio)
  {
    hide DoAll;
    RunConfigured(NewHls(targetSecs, windowSize), calls);
  }
}
